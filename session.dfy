/**
 * The round and game state of the guessing game and the operations that change
 * it: making a guess, recording a solve and moving on to the next target.
 */
module Session {
  import opened Options
  import opened Text
  import opened Sorting
  import opened Geo
  import opened GeoIndex
  import opened Feedback

  /** A country to find, the letter it reveals, where its sticker goes and the sticker's image. */
  datatype Target = Target(name: string, letter: char, lat: real, lng: real, img: string)

  /** The countries to find, in order; their letters spell VALENTINE. */
  const TARGET_SEQUENCE: seq<Target> := [
    Target("Qatar", 'V', 25.3548, 51.1839, "https://placehold.co/100x100?text=Qatar"),
    Target("Luxembourg", 'A', 49.8153, 6.1296, "https://placehold.co/100x100?text=Luxembourg"),
    Target("Bahrain", 'L', 26.0667, 50.5577, "https://placehold.co/100x100?text=Bahrain"),
    Target("United States of America", 'E', 37.0902, -95.7129, "https://placehold.co/100x100?text=USA"),
    Target("United Arab Emirates", 'N', 23.4241, 53.8478, "https://placehold.co/100x100?text=UAE"),
    Target("Canada", 'T', 56.1304, -106.3468, "https://placehold.co/100x100?text=Canada"),
    Target("Estonia", 'I', 58.5953, 25.0136, "https://placehold.co/100x100?text=Estonia"),
    Target("Kuwait", 'N', 29.3117, 47.4818, "https://placehold.co/100x100?text=Kuwait"),
    Target("Belize", 'E', 17.1899, -88.4976, "https://placehold.co/100x100?text=Belize")
  ]

  function TargetCoords(t: Target): LatLng {
    LatLng(t.lat, t.lng)
  }

  /** A photo sticker left on the globe at a solved target. */
  datatype Marker = Marker(lat: real, lng: real, img: string, id: string)

  function MarkerOf(t: Target): Marker {
    Marker(t.lat, t.lng, t.img, t.name)
  }

  /** The best distance of the round; Infinity before the round's first guess. */
  datatype Distance = Infinity | Finite(km: Km)

  /** `d < closestDistance`, with every number below Infinity. */
  predicate Closer(d: real, c: Distance) {
    c.Infinity? || d < c.km
  }

  /**
   * What is fixed once the game has started: the name list and coordinate table
   * built from the dataset, and the targets to find.
   */
  datatype World = World(names: seq<string>, coords: map<string, LatLng>, targets: seq<Target>)

  /**
   * The module-level state: the current target's position in the sequence, this
   * round's guesses with their distances, the names solved in any round, the
   * stickers placed so far, the round's closest distance and the number of
   * guesses over all rounds.
   */
  datatype GameState = GameState(
    targetIndex: nat,
    guessed: map<string, Km>,
    solved: set<string>,
    markers: seq<Marker>,
    closest: Distance,
    totalGuesses: nat)

  const INITIAL: GameState := GameState(0, map[], {}, [], Infinity, 0)

  /** The input that jumps straight to the finale. */
  const BYPASS := "testexplosion"

  /** What one call of makeGuess does. */
  datatype GuessOutcome =
    | Bypassed        // the finale shortcut was typed
    | NotFound        // "Country not found!"
    | AlreadyGuessed  // "Already guessed!"
    | NoTarget        // every target is done: reading the current target's fields throws a TypeError
    | NoLocation      // "Could not find country location"
    | Recorded(name: string, distance: Km, arrow: Arrow, exact: bool, solve: bool)

  /** `names[k]` is the first name equal to `query` up to case. */
  predicate FirstMatchAt(names: seq<string>, query: string, k: int) {
    0 <= k < |names| && Lower(names[k]) == Lower(query)
    && forall j :: 0 <= j < k ==> Lower(names[j]) != Lower(query)
  }

  /** A first match in the tail is a first match in the whole list when the head does not match. */
  lemma FirstMatchInTail(names: seq<string>, query: string)
    requires names != [] && Lower(names[0]) != Lower(query)
    ensures forall k :: FirstMatchAt(names[1..], query, k) ==> FirstMatchAt(names, query, k + 1)
  {
    forall k | FirstMatchAt(names[1..], query, k) ensures FirstMatchAt(names, query, k + 1) {
      forall j | 0 <= j < k + 1 ensures Lower(names[j]) != Lower(query) {
        if j > 0 { assert names[j] == names[1..][j - 1]; }
      }
    }
  }

  /**
   * Array.prototype.find over the name list with a case-insensitive equality
   * test: the first name equal to `query` up to case, or None.
   */
  function FindName(names: seq<string>, query: string): (r: Option<string>)
    ensures r.None? <==> forall k :: 0 <= k < |names| ==> Lower(names[k]) != Lower(query)
    ensures r.Some? ==> exists k :: FirstMatchAt(names, query, k) && names[k] == r.value
  {
    if names == [] then None
    else if Lower(names[0]) == Lower(query) then
      assert FirstMatchAt(names, query, 0);
      Some(names[0])
    else
      var r := FindName(names[1..], query);
      FirstMatchInTail(names, query);
      assert forall k :: 1 <= k < |names| ==> names[k] == names[1..][k - 1];
      r
  }

  /**
   * makeGuess, the part that decides: the trimmed input is the finale shortcut,
   * or is looked up case-insensitively and refused when unknown, already guessed
   * this round, asked after the last target, or without a coordinate; otherwise
   * the guess is measured against the current target.
   */
  function Resolve(w: World, s: GameState, input: string,
                   dist: (LatLng, LatLng) -> Km, bearing: (LatLng, LatLng) -> real): (o: GuessOutcome)
    ensures o == Bypassed <==> Lower(Trim(input)) == BYPASS
    ensures o == NotFound <==>
              Lower(Trim(input)) != BYPASS && forall k :: 0 <= k < |w.names| ==> Lower(w.names[k]) != Lower(Trim(input))
    ensures Lower(Trim(input)) != BYPASS && FindName(w.names, Trim(input)).Some? ==>
              var m := FindName(w.names, Trim(input)).value;
              && (o == AlreadyGuessed <==> m in s.guessed)
              && (o == NoTarget <==> m !in s.guessed && s.targetIndex >= |w.targets|)
              && (o == NoLocation <==> m !in s.guessed && s.targetIndex < |w.targets| && m !in w.coords)
              && (o.Recorded? <==> m !in s.guessed && s.targetIndex < |w.targets| && m in w.coords)
              && (o.Recorded? ==> o.name == m)
    ensures o.Recorded? ==>
              && s.targetIndex < |w.targets|
              && o.name in w.names && Lower(o.name) == Lower(Trim(input))
              && o.name !in s.guessed && o.name in w.coords
              && o.distance == dist(w.coords[o.name], TargetCoords(w.targets[s.targetIndex]))
              && o.arrow == DirectionArrow(bearing(w.coords[o.name], TargetCoords(w.targets[s.targetIndex])))
              && o.exact == (o.distance == 0.0)
              && o.solve == (o.name == w.targets[s.targetIndex].name)
  {
    var normalized := Trim(input);
    var key := Lower(normalized);
    var found := FindName(w.names, normalized);
    if key == BYPASS then Bypassed
    else
      match found
      case None => NotFound
      case Some(m) =>
        if m in s.guessed then AlreadyGuessed
        else if s.targetIndex >= |w.targets| then NoTarget
        else if m !in w.coords then NoLocation
        else
          var target := TargetCoords(w.targets[s.targetIndex]);
          var d := dist(w.coords[m], target);
          Recorded(m, d, DirectionArrow(bearing(w.coords[m], target)), d == 0.0,
                   m == w.targets[s.targetIndex].name)
  }

  /**
   * makeGuess, the part that writes: the shortcut moves past the last target;
   * a recorded guess adds exactly its name to the round, counts one more guess
   * and lowers the round's best distance, which a solve forces to 0; a refused
   * guess changes nothing. The solved set and the stickers are never touched.
   */
  function Apply(w: World, s: GameState, o: GuessOutcome): (r: GameState)
    ensures r.solved == s.solved && r.markers == s.markers
    ensures o.Bypassed? ==> r == s.(targetIndex := |w.targets|)
    ensures o.NotFound? || o.AlreadyGuessed? || o.NoTarget? || o.NoLocation? ==> r == s
    ensures o.Recorded? ==>
              && r.targetIndex == s.targetIndex
              && r.guessed.Keys == s.guessed.Keys + {o.name}
              && r.guessed[o.name] == o.distance
              && (forall n :: n in s.guessed && n != o.name ==> r.guessed[n] == s.guessed[n])
              && r.totalGuesses == s.totalGuesses + 1
    ensures o.Recorded? && o.solve ==> r.closest == Finite(0.0)
    ensures o.Recorded? && !o.solve ==>
              && r.closest.Finite? && r.closest.km <= o.distance
              && (s.closest.Finite? ==> r.closest.km <= s.closest.km)
              && (r.closest.km == o.distance || r.closest == s.closest)
  {
    match o
    case Bypassed => s.(targetIndex := |w.targets|)
    case Recorded(m, d, _, _, solve) =>
      var best := if Closer(d, s.closest) then Finite(d) else s.closest;
      s.(guessed := s.guessed[m := d],
         totalGuesses := s.totalGuesses + 1,
         closest := if solve then Finite(0.0) else best)
    case _ => s
  }

  /**
   * The bookkeeping of a revealed letter: the target's name joins the solved set
   * and exactly one sticker, carrying the target's position, image and name, is
   * appended.
   */
  function RecordSolve(s: GameState, t: Target): (r: GameState)
    ensures r.solved == s.solved + {t.name}
    ensures |r.markers| == |s.markers| + 1 && r.markers[..|s.markers|] == s.markers
    ensures r.markers[|s.markers|] == Marker(t.lat, t.lng, t.img, t.name)
    ensures r.targetIndex == s.targetIndex && r.guessed == s.guessed
    ensures r.closest == s.closest && r.totalGuesses == s.totalGuesses
  {
    s.(solved := s.solved + {t.name}, markers := s.markers + [MarkerOf(t)])
  }

  /**
   * continueToNextStage: the next target, a round with no guesses and no best
   * distance; the solved set, the stickers and the guess count carry over.
   */
  function Advance(s: GameState): (r: GameState)
    ensures r.targetIndex == s.targetIndex + 1
    ensures r.guessed == map[] && r.closest == Infinity
    ensures r.solved == s.solved && r.markers == s.markers && r.totalGuesses == s.totalGuesses
  {
    s.(targetIndex := s.targetIndex + 1, guessed := map[], closest := Infinity)
  }

  /**
   * The state changes the letter animation makes once the letter lands: record
   * the solve, then advance. The round starts afresh at the next target, one
   * more name is solved and one more sticker placed, and the guess count stays.
   */
  function Reveal(s: GameState, t: Target): (r: GameState)
    ensures r.targetIndex == s.targetIndex + 1 && r.guessed == map[] && r.closest == Infinity
    ensures r.solved == s.solved + {t.name} && r.markers == s.markers + [MarkerOf(t)]
    ensures r.totalGuesses == s.totalGuesses
  {
    Advance(RecordSolve(s, t))
  }

  function MarkerIds(ms: seq<Marker>): set<string> {
    set k | 0 <= k < |ms| :: ms[k].id
  }

  /**
   * What holds of the state between events: every name guessed this round is on
   * the name list and has a coordinate; the round has a best distance exactly
   * when it has a guess, no greater than any guess and equal to one of them
   * unless a solve forced it to 0; and the solved set is the set of sticker ids.
   */
  predicate Consistent(w: World, s: GameState) {
    && (forall n :: n in s.guessed ==> n in w.names && n in w.coords)
    && (s.closest.Infinity? <==> s.guessed == map[])
    && (s.closest.Finite? ==> forall n :: n in s.guessed ==> s.closest.km <= s.guessed[n])
    && (s.closest.Finite? && s.closest.km != 0.0 ==> exists n :: n in s.guessed && s.guessed[n] == s.closest.km)
    && s.solved == MarkerIds(s.markers)
  }

  lemma InitialConsistent(w: World)
    ensures Consistent(w, INITIAL)
  {
  }

  /** Recording a guess of an indexed name not yet guessed keeps the state consistent. */
  lemma RecordKeepsConsistent(w: World, s: GameState, o: GuessOutcome)
    requires Consistent(w, s) && o.Recorded?
    requires o.name in w.names && o.name in w.coords && o.name !in s.guessed
    ensures Consistent(w, Apply(w, s, o))
  {
    var r := Apply(w, s, o);
    assert o.name in r.guessed;
    if r.closest.km != 0.0 {
      if r.closest.km == o.distance {
        assert r.guessed[o.name] == r.closest.km;
      } else {
        var n :| n in s.guessed && s.guessed[n] == s.closest.km;
        assert r.guessed[n] == r.closest.km;
      }
    }
  }

  /** Every guess, refused or not, keeps the state consistent. */
  lemma GuessKeepsConsistent(w: World, s: GameState, input: string,
                             dist: (LatLng, LatLng) -> Km, bearing: (LatLng, LatLng) -> real)
    requires Consistent(w, s)
    ensures Consistent(w, Apply(w, s, Resolve(w, s, input, dist, bearing)))
  {
    var o := Resolve(w, s, input, dist, bearing);
    if o.Recorded? {
      RecordKeepsConsistent(w, s, o);
    }
  }

  /** Recording a solve and advancing keeps the state consistent. */
  lemma RevealKeepsConsistent(w: World, s: GameState, t: Target)
    requires Consistent(w, s)
    ensures Consistent(w, Reveal(s, t))
  {
    var ms := s.markers + [MarkerOf(t)];
    assert MarkerIds(ms) == MarkerIds(s.markers) + {t.name} by {
      assert ms[|s.markers|].id == t.name;
      forall x | x in MarkerIds(ms) ensures x in MarkerIds(s.markers) + {t.name} {
        var k :| 0 <= k < |ms| && ms[k].id == x;
        if k < |s.markers| { assert ms[k] == s.markers[k]; }
      }
      forall x | x in MarkerIds(s.markers) ensures x in MarkerIds(ms) {
        var k :| 0 <= k < |s.markers| && s.markers[k].id == x;
        assert ms[k] == s.markers[k];
      }
    }
  }

  /**
   * Repeating a guess that was just recorded is refused as already guessed and
   * changes nothing.
   */
  lemma RepeatedGuessRefused(w: World, s: GameState, input: string,
                             dist: (LatLng, LatLng) -> Km, bearing: (LatLng, LatLng) -> real)
    requires Resolve(w, s, input, dist, bearing).Recorded?
    ensures var s' := Apply(w, s, Resolve(w, s, input, dist, bearing));
            Resolve(w, s', input, dist, bearing) == AlreadyGuessed
            && Apply(w, s', AlreadyGuessed) == s'
  {
  }

  /** Past the last target no guess is recorded; only the shortcut changes anything. */
  lemma NothingRecordedWhenComplete(w: World, s: GameState, input: string,
                                    dist: (LatLng, LatLng) -> Km, bearing: (LatLng, LatLng) -> real)
    requires s.targetIndex >= |w.targets|
    ensures var o := Resolve(w, s, input, dist, bearing);
            !o.Recorded? && (o != Bypassed ==> Apply(w, s, o) == s)
  {
  }

  /**
   * A solve is told by the name alone: guessing the current target's name ends
   * the round with a best distance of 0 even when the measured distance, taken
   * from the dataset's centroid to the target's own coordinate, is not 0, and
   * then the guess is not flagged exact.
   */
  lemma SolveByNameNotDistance(w: World, s: GameState, input: string,
                               dist: (LatLng, LatLng) -> Km, bearing: (LatLng, LatLng) -> real)
    requires s.targetIndex < |w.targets|
    requires Resolve(w, s, input, dist, bearing).Recorded?
    requires Resolve(w, s, input, dist, bearing).name == w.targets[s.targetIndex].name
    ensures var o := Resolve(w, s, input, dist, bearing);
            o.solve && Apply(w, s, o).closest == Finite(0.0) && (o.distance > 0.0 ==> !o.exact)
  {
  }

  /**
   * The progression invariant: while a target remains, the solved set and the
   * stickers are exactly those of the targets before the current one, in order.
   */
  predicate OnTrack(w: World, s: GameState) {
    s.targetIndex < |w.targets| ==>
      s.solved == SolvedUpTo(w.targets, s.targetIndex) && s.markers == MarkersUpTo(w.targets, s.targetIndex)
  }

  /** Every guess, whether it misses, is refused, repeats or solves, keeps the game on track. */
  lemma GuessKeepsOnTrack(w: World, s: GameState, input: string,
                          dist: (LatLng, LatLng) -> Km, bearing: (LatLng, LatLng) -> real)
    requires OnTrack(w, s)
    ensures OnTrack(w, Apply(w, s, Resolve(w, s, input, dist, bearing)))
  {
  }

  /** The bookkeeping and advance after a solve keep the game on track. */
  lemma SolveKeepsOnTrack(w: World, s: GameState, o: GuessOutcome)
    requires OnTrack(w, s) && s.targetIndex < |w.targets| && o.Recorded? && o.solve
    ensures OnTrack(w, Reveal(Apply(w, s, o), w.targets[s.targetIndex]))
  {
    var k := s.targetIndex;
    var t := w.targets[k];
    SolvedRoundResult(w, s, o, t);
    assert SolvedUpTo(w.targets, k + 1) == s.solved + {t.name};
    assert MarkersUpTo(w.targets, k + 1) == s.markers + [MarkerOf(t)];
  }

  // ---------------------------------------------------------------------------
  // A whole game played without a miss
  // ---------------------------------------------------------------------------

  /**
   * A target the player finds by typing its name: the name needs no trimming,
   * is not the shortcut, is indexed and located, and no other indexed name
   * equals it up to case.
   */
  predicate Findable(w: World, t: Target) {
    && Trim(t.name) == t.name && Lower(t.name) != BYPASS
    && t.name in w.names && t.name in w.coords
    && forall n :: n in w.names && Lower(n) == Lower(t.name) ==> n == t.name
  }

  /** One round played by typing the current target's name, followed by its letter landing. */
  function PlayRound(w: World, s: GameState,
                     dist: (LatLng, LatLng) -> Km, bearing: (LatLng, LatLng) -> real): GameState
  {
    if s.targetIndex < |w.targets| then
      var t := w.targets[s.targetIndex];
      var o := Resolve(w, s, t.name, dist, bearing);
      if o.Recorded? && o.solve then Reveal(Apply(w, s, o), t) else Apply(w, s, o)
    else s
  }

  /** The names of the first `k` targets. */
  function SolvedUpTo(ts: seq<Target>, k: nat): (r: set<string>)
    requires k <= |ts|
    ensures forall n :: n in r <==> exists i :: 0 <= i < k && ts[i].name == n
  {
    if k == 0 then {} else SolvedUpTo(ts, k - 1) + {ts[k - 1].name}
  }

  /** The stickers of the first `k` targets, in target order. */
  function MarkersUpTo(ts: seq<Target>, k: nat): (r: seq<Marker>)
    requires k <= |ts|
    ensures |r| == k && forall i :: 0 <= i < k ==> r[i] == MarkerOf(ts[i])
  {
    if k == 0 then [] else MarkersUpTo(ts, k - 1) + [MarkerOf(ts[k - 1])]
  }

  function IndexOf(names: seq<string>, n: string): (k: nat)
    requires n in names
    ensures k < |names| && names[k] == n
  {
    if names[0] == n then 0 else 1 + IndexOf(names[1..], n)
  }

  /** Looking up an indexed name that no other indexed name equals up to case finds that name. */
  lemma FindUniqueName(names: seq<string>, name: string)
    requires name in names
    requires forall n :: n in names && Lower(n) == Lower(name) ==> n == name
    ensures FindName(names, name) == Some(name)
  {
    var k := IndexOf(names, name);
    assert Lower(names[k]) == Lower(name);
  }

  /** A found name that is new this round and has a coordinate, asked while a target remains, is recorded. */
  lemma FoundNameRecorded(w: World, s: GameState, input: string, m: string,
                          dist: (LatLng, LatLng) -> Km, bearing: (LatLng, LatLng) -> real)
    requires Lower(Trim(input)) != BYPASS && FindName(w.names, Trim(input)) == Some(m)
    requires m !in s.guessed && s.targetIndex < |w.targets| && m in w.coords
    ensures var o := Resolve(w, s, input, dist, bearing);
            o.Recorded? && o.name == m && o.solve == (m == w.targets[s.targetIndex].name)
  {
  }

  /** Typing a findable current target's name, not yet guessed this round, records it as a solve. */
  lemma TypingTargetSolves(w: World, s: GameState,
                           dist: (LatLng, LatLng) -> Km, bearing: (LatLng, LatLng) -> real)
    requires s.targetIndex < |w.targets| && Findable(w, w.targets[s.targetIndex])
    requires w.targets[s.targetIndex].name !in s.guessed
    ensures var o := Resolve(w, s, w.targets[s.targetIndex].name, dist, bearing);
            o.Recorded? && o.solve && o.name == w.targets[s.targetIndex].name
  {
    var name := w.targets[s.targetIndex].name;
    FindUniqueName(w.names, name);
    FoundNameRecorded(w, s, name, name, dist, bearing);
  }

  /** The lookup depends on the query only through its lower-cased form. */
  lemma {:induction false} FindNameIgnoresCase(names: seq<string>, q1: string, q2: string)
    requires Lower(q1) == Lower(q2)
    ensures FindName(names, q1) == FindName(names, q2)
  {
    if names != [] {
      FindNameIgnoresCase(names[1..], q1, q2);
    }
  }

  /** Looking up a query finds the same name as looking up its lower-cased form. */
  lemma FindNameOfLower(names: seq<string>, q: string)
    ensures FindName(names, q) == FindName(names, Lower(q))
  {
    LowerIdempotent(q);
    FindNameIgnoresCase(names, q, Lower(q));
  }

  /**
   * Any spelling of a findable target's name, in any mix of upper and lower
   * case and with any surrounding whitespace, solves the round when the target
   * was not yet guessed.
   */
  lemma AnyCaseVariantSolves(w: World, s: GameState, input: string,
                             dist: (LatLng, LatLng) -> Km, bearing: (LatLng, LatLng) -> real)
    requires s.targetIndex < |w.targets| && Findable(w, w.targets[s.targetIndex])
    requires w.targets[s.targetIndex].name !in s.guessed
    requires Lower(Trim(input)) == Lower(w.targets[s.targetIndex].name)
    ensures var o := Resolve(w, s, input, dist, bearing);
            o.Recorded? && o.solve && o.name == w.targets[s.targetIndex].name
  {
    var name := w.targets[s.targetIndex].name;
    FindUniqueName(w.names, name);
    FindNameIgnoresCase(w.names, Trim(input), name);
    LowerIdempotent(name);
    FoundNameRecorded(w, s, input, name, dist, bearing);
  }

  /** A solving guess followed by its letter landing leaves a fresh round at the next target. */
  lemma SolvedRoundResult(w: World, s: GameState, o: GuessOutcome, t: Target)
    requires o.Recorded? && o.solve
    ensures Reveal(Apply(w, s, o), t)
              == GameState(s.targetIndex + 1, map[], s.solved + {t.name}, s.markers + [MarkerOf(t)],
                           Infinity, s.totalGuesses + 1)
  {
  }

  /** Typing the current target's name in a fresh round solves it and moves on. */
  lemma RoundSolvesTarget(w: World, s: GameState,
                          dist: (LatLng, LatLng) -> Km, bearing: (LatLng, LatLng) -> real)
    requires s.targetIndex < |w.targets| && s.guessed == map[]
    requires Findable(w, w.targets[s.targetIndex])
    ensures var t := w.targets[s.targetIndex];
            PlayRound(w, s, dist, bearing)
              == GameState(s.targetIndex + 1, map[], s.solved + {t.name}, s.markers + [MarkerOf(t)],
                           Infinity, s.totalGuesses + 1)
  {
    var t := w.targets[s.targetIndex];
    TypingTargetSolves(w, s, dist, bearing);
    SolvedRoundResult(w, s, Resolve(w, s, t.name, dist, bearing), t);
  }

  /**
   * The state after the first `k` targets were each found at the first try:
   * at target `k`, the first `k` names solved, their `k` stickers placed in
   * order, `k` guesses made and a fresh round.
   */
  function AfterPerfectRounds(ts: seq<Target>, k: nat): GameState
    requires k <= |ts|
  {
    GameState(k, map[], SolvedUpTo(ts, k), MarkersUpTo(ts, k), Infinity, k)
  }

  /**
   * Typing each target's name in turn solves the targets one by one: the game
   * starts in the state of no perfect rounds, and each round played by typing
   * the current target's name leads from `k` perfect rounds to `k + 1`, so that
   * after all of them the game is past its last target.
   */
  lemma PerfectRound(w: World, s: GameState, k: nat,
                    dist: (LatLng, LatLng) -> Km, bearing: (LatLng, LatLng) -> real)
    requires k < |w.targets| && Findable(w, w.targets[k])
    requires s.targetIndex == k && s.guessed == map[] && s.solved == SolvedUpTo(w.targets, k)
    requires s.markers == MarkersUpTo(w.targets, k) && s.totalGuesses == k
    ensures PlayRound(w, s, dist, bearing) == AfterPerfectRounds(w.targets, k + 1)
  {
    RoundSolvesTarget(w, s, dist, bearing);
  }

  /** The state after the first `k` rounds, each played by typing the current target's name. */
  function Play(w: World, k: nat, dist: (LatLng, LatLng) -> Km, bearing: (LatLng, LatLng) -> real): GameState
  {
    if k == 0 then INITIAL else PlayRound(w, Play(w, k - 1, dist, bearing), dist, bearing)
  }

  lemma {:induction false} PerfectPlay(w: World, k: nat,
                                       dist: (LatLng, LatLng) -> Km, bearing: (LatLng, LatLng) -> real)
    requires k <= |w.targets|
    requires forall i :: 0 <= i < |w.targets| ==> Findable(w, w.targets[i])
    ensures var p := Play(w, k, dist, bearing);
            && p.targetIndex == k && p.guessed == map[] && p.solved == SolvedUpTo(w.targets, k)
            && p.markers == MarkersUpTo(w.targets, k) && p.closest == Infinity && p.totalGuesses == k
  {
    if k > 0 {
      PerfectPlay(w, k - 1, dist, bearing);
      PerfectRound(w, Play(w, k - 1, dist, bearing), k - 1, dist, bearing);
    }
  }

  /** No target name of the game has surrounding whitespace or spells the shortcut. */
  lemma TargetNamesTypable(i: nat)
    requires i < |TARGET_SEQUENCE|
    ensures Trim(TARGET_SEQUENCE[i].name) == TARGET_SEQUENCE[i].name
    ensures Lower(TARGET_SEQUENCE[i].name) != BYPASS
  {
    var name := TARGET_SEQUENCE[i].name;
    assert |name| != |BYPASS|;
    TrimOfTrimmed(name);
  }

  // ---------------------------------------------------------------------------
  // The game's variables and the handlers that update them
  // ---------------------------------------------------------------------------

  /**
   * The page's module-level variables: the name list and coordinate table built
   * at load time, and the state the guess and reveal handlers update in place.
   */
  class Game {
    var allCountryNames: seq<string>
    var countryCoords: map<string, LatLng>
    var currentTargetIndex: nat
    var guessedCountries: map<string, Km>
    var permanentlySolvedCountries: set<string>
    var solvedMarkers: seq<Marker>
    var closestDistance: Distance
    var totalGuessCount: nat

    /** The index built so far together with the fixed target sequence. */
    function WorldOf(): World
      reads this
    {
      World(allCountryNames, countryCoords, TARGET_SEQUENCE)
    }

    /** The variables the handlers update, as one value. */
    function State(): GameState
      reads this
    {
      GameState(currentTargetIndex, guessedCountries, permanentlySolvedCountries, solvedMarkers,
                closestDistance, totalGuessCount)
    }

    /** The variables as the page declares them: nothing indexed, no guess, no solve, the first target. */
    constructor ()
      ensures allCountryNames == [] && countryCoords == map[]
      ensures State() == INITIAL
      ensures Consistent(WorldOf(), State())
    {
      allCountryNames := [];
      countryCoords := map[];
      currentTargetIndex := 0;
      guessedCountries := map[];
      permanentlySolvedCountries := {};
      solvedMarkers := [];
      closestDistance := Infinity;
      totalGuessCount := 0;
    }

    /**
     * The index building of initGlobe: every feature with a listed name has the
     * name pushed and, when it has a centroid, its coordinate written; then the
     * name list is sorted. The round state is untouched.
     */
    method BuildIndex(features: seq<Feature>)
      modifies this
      ensures allCountryNames == Sort(old(allCountryNames) + IndexNames(features))
      ensures Sorted(allCountryNames)
      ensures countryCoords == old(countryCoords) + IndexCoords(features)
      ensures State() == old(State())
    {
      var i := 0;
      while i < |features|
        invariant 0 <= i <= |features|
        invariant allCountryNames == old(allCountryNames) + IndexNames(features[..i])
        invariant countryCoords == old(countryCoords) + IndexCoords(features[..i])
        invariant State() == old(State())
      {
        var f := features[i];
        IndexStep(features, i);
        if Listed(NameOf(f)) && CentroidOf(f).Some? {
          MergeUpdate(old(countryCoords), IndexCoords(features[..i]), NameOf(f), CentroidOf(f).value);
        }
        IndexFeature(f);
        i := i + 1;
      }
      assert features[..i] == features;
      allCountryNames := Sort(allCountryNames);
    }

    /**
     * The callback of the build loop for one feature: a listed name is pushed
     * and, when the feature has a centroid, written into the coordinate table
     * over any earlier entry; nothing else changes.
     */
    method IndexFeature(f: Feature)
      modifies this
      ensures allCountryNames == old(allCountryNames) + (if Listed(NameOf(f)) then [NameOf(f)] else [])
      ensures countryCoords ==
                if Listed(NameOf(f)) && CentroidOf(f).Some?
                then old(countryCoords)[NameOf(f) := CentroidOf(f).value]
                else old(countryCoords)
      ensures State() == old(State())
    {
      var name := CountryName(f.properties);
      if name != "" && name != UNKNOWN {
        allCountryNames := allCountryNames + [name];
        var coords := Centroid(f);
        if coords.Some? {
          countryCoords := countryCoords[name := coords.value];
        }
      }
    }

    /**
     * makeGuess: resolves the input against the index and the current target,
     * then records it. The outcome and the new state are those of Resolve and
     * Apply, the index does not change, and a consistent state stays consistent.
     */
    method MakeGuess(countryName: string,
                     dist: (LatLng, LatLng) -> Km, bearing: (LatLng, LatLng) -> real)
      returns (outcome: GuessOutcome)
      modifies this
      ensures outcome == Resolve(old(WorldOf()), old(State()), countryName, dist, bearing)
      ensures State() == Apply(old(WorldOf()), old(State()), outcome)
      ensures WorldOf() == old(WorldOf())
      ensures old(Consistent(WorldOf(), State())) ==> Consistent(WorldOf(), State())
    {
      ghost var w, s := WorldOf(), State();
      ghost var expected := Resolve(w, s, countryName, dist, bearing);
      var normalized := Trim(countryName);
      if Lower(normalized) == BYPASS {
        currentTargetIndex := |TARGET_SEQUENCE|;
        return Bypassed;
      }
      var found := FindName(allCountryNames, normalized);
      if found.None? {
        return NotFound;
      }
      var name := found.value;
      if name in guessedCountries {
        return AlreadyGuessed;
      }
      if currentTargetIndex >= |TARGET_SEQUENCE| {
        return NoTarget;
      }
      var target := TARGET_SEQUENCE[currentTargetIndex];
      if name !in countryCoords {
        return NoLocation;
      }
      var guessCoords := countryCoords[name];
      var distance := dist(guessCoords, TargetCoords(target));
      var arrow := DirectionArrow(bearing(guessCoords, TargetCoords(target)));
      outcome := Recorded(name, distance, arrow, distance == 0.0, name == target.name);
      assert outcome == expected;
      Record(outcome);
      if Consistent(w, s) {
        GuessKeepsConsistent(w, s, countryName, dist, bearing);
      }
    }

    /**
     * The writes of makeGuess for a guess that was measured: the guess and its
     * distance are stored, the guess count goes up, the closest distance drops
     * to the new distance when it is smaller and to 0 when the target was named.
     */
    method Record(o: GuessOutcome)
      requires o.Recorded?
      modifies this
      ensures State() == Apply(old(WorldOf()), old(State()), o)
      ensures WorldOf() == old(WorldOf())
    {
      guessedCountries := guessedCountries[o.name := o.distance];
      totalGuessCount := totalGuessCount + 1;
      if Closer(o.distance, closestDistance) {
        closestDistance := Finite(o.distance);
      }
      if o.solve {
        closestDistance := Finite(0.0);
      }
    }

    /**
     * The end of the letter animation: the target joins the solved countries,
     * its sticker is pushed, and the game continues to the next stage.
     */
    method RevealLetter(target: Target) returns (complete: bool)
      modifies this
      ensures State() == Reveal(old(State()), target)
      ensures WorldOf() == old(WorldOf())
      ensures complete <==> currentTargetIndex >= |TARGET_SEQUENCE|
      ensures old(Consistent(WorldOf(), State())) ==> Consistent(WorldOf(), State())
    {
      ghost var s := State();
      permanentlySolvedCountries := permanentlySolvedCountries + {target.name};
      solvedMarkers := solvedMarkers + [MarkerOf(target)];
      complete := ContinueToNextStage();
      if Consistent(WorldOf(), s) {
        RevealKeepsConsistent(WorldOf(), s, target);
      }
    }

    /**
     * continueToNextStage: the next target with the round cleared; the game is
     * complete once the index has passed the last target.
     */
    method ContinueToNextStage() returns (complete: bool)
      modifies this
      ensures State() == Advance(old(State()))
      ensures WorldOf() == old(WorldOf())
      ensures complete <==> currentTargetIndex >= |TARGET_SEQUENCE|
    {
      currentTargetIndex := currentTargetIndex + 1;
      guessedCountries := map[];
      closestDistance := Infinity;
      complete := currentTargetIndex >= |TARGET_SEQUENCE|;
    }
  }

  /** Writing one entry after merging two tables is writing it into the right-hand table. */
  lemma MergeUpdate(m: map<string, LatLng>, n: map<string, LatLng>, k: string, v: LatLng)
    ensures (m + n)[k := v] == m + n[k := v]
  {
  }

  // ---------------------------------------------------------------------------
  // Colours of the countries on the globe
  // ---------------------------------------------------------------------------

  datatype Color = Hex(code: string) | Gradient(rgb: Rgb)

  const SOLVED_COLOR: Color := Hex("#FF1493")
  const LAND_COLOR: Color := Hex("#98D176")

  /**
   * getCountryColor: solved in any round first, then guessed this round (at
   * distance 0 like a solve, otherwise by the distance gradient), else plain land.
   */
  function CountryColor(s: GameState, f: Feature): (c: Color)
    ensures NameOf(f) in s.solved ==> c == SOLVED_COLOR
    ensures NameOf(f) !in s.solved && NameOf(f) in s.guessed && s.guessed[NameOf(f)] != 0.0 ==>
              c == Gradient(DistanceColor(s.guessed[NameOf(f)]))
    ensures c == SOLVED_COLOR <==>
              NameOf(f) in s.solved || (NameOf(f) in s.guessed && s.guessed[NameOf(f)] == 0.0)
    ensures c == LAND_COLOR <==> NameOf(f) !in s.solved && NameOf(f) !in s.guessed
  {
    var name := NameOf(f);
    if name in s.solved then SOLVED_COLOR
    else if name in s.guessed then
      (if s.guessed[name] == 0.0 then SOLVED_COLOR else Gradient(DistanceColor(s.guessed[name])))
    else LAND_COLOR
  }

  /**
   * A country solved in an earlier round keeps the solved colour through every
   * later event: any guess outcome of the round and any letter landing.
   */
  lemma RevealedTargetStaysSolved(w: World, s: GameState, o: GuessOutcome, t: Target, f: Feature)
    requires NameOf(f) in s.solved
    ensures CountryColor(Apply(w, s, o), f) == SOLVED_COLOR
    ensures CountryColor(Reveal(s, t), f) == SOLVED_COLOR
  {
  }

  /** Once its letter lands, a target's country shows the solved colour. */
  lemma RevealShowsSolved(s: GameState, t: Target, f: Feature)
    requires NameOf(f) == t.name
    ensures CountryColor(Reveal(s, t), f) == SOLVED_COLOR
  {
  }
}
