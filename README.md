# Globle Valentine in Dafny

A model of the game logic of Globle Valentine, a browser guessing game played on a
globe. The player must find nine target countries in a fixed order. Their
letters spell VALENTINE. Each guess is a country name. The game answers with the
distance from the guessed country to the target, a compass arrow towards the
target, and a pink colour for the country on the globe. Typing the target's name
solves the round. The target's letter is revealed, a photo sticker is placed on
the globe, and the next round starts with a fresh guess list.

The modules follow the parts of `script.js`:

- `Text`: what the game uses of JavaScript strings. This is `trim`,
  `toLowerCase`, `includes` and the default order of `Array.prototype.sort`.
- `Sorting`: the sort of the name list. Modelled as a sorted permutation, which
  is proved unique.
- `Geo`: country names from the dataset properties, and the nested coordinate
  arrays as a recursive datatype. `extractCoords` is an accumulating method.
  `getCentroid` is a method proved equal to a mean defined by folds.
- `GeoIndex`: the name list and the coordinate table that the page builds at
  load time, defined feature by feature.
- `Feedback`: the direction arrow and the distance gradient.
- `Autocomplete`: the suggestion filter.
- `Session`: the round and game state. It holds:
  - the decision part of `makeGuess` (`Resolve`) and its writes (`Apply`);
  - the solve bookkeeping and `continueToNextStage`;
  - a state invariant and a whole game played without a miss;
  - the country colouring;
  - the class `Game`, whose fields are the page's module-level variables and
    whose methods update them in place.

The haversine distance and the `atan2` bearing are parameters:
`dist: (LatLng, LatLng) -> Km` and `bearing: (LatLng, LatLng) -> real`.
Numbers are Dafny reals. `Math.round(x)` is `Floor(x + 0.5)`.

Where the code's behaviour is surprising, the model follows the code as written:

- Duplicate names stay in the name list. A later feature's centroid overwrites
  an earlier one of the same name.
- A solve is detected by name equality. The best distance is then forced to 0,
  while the recorded distance (centroid to target coordinate) generally is not 0.
  The "exact" flag is `distance == 0`, so a solve is usually not flagged exact.
- Two coincident points give a bearing of 0 and so the north arrow. The target
  symbol at the end of `getDirectionArrow` is never returned.
- After the last target, an unknown or already guessed name still gets its own
  message. A name that is found and not yet guessed reaches the target lookup.
  There it reads a field of `undefined` and throws. The model gives that case its
  own outcome, `NoTarget`, which leaves the state unchanged.

## Model

| member | source | states |
|---|---|---|
| Geo.CountryName | script.js:147-149 | the name is `name` if non-empty, else `NAME` if non-empty, else `ADMIN` if non-empty, else "Unknown"; it is never empty |
| Geo.ExtractCoords | script.js:159-169 | the accumulator ends as the old accumulator followed by every position of the nested array, depth first, in order |
| Geo.Centroid | script.js:154-183 | null exactly when there is no position; otherwise lat times the count is the sum of latitudes and lng times the count is the sum of longitudes; equal to the reference mean `CentroidOf` |
| Geo.CentroidInBoundingBox | script.js:173-179 | when every position lies in a latitude and longitude range, so does the centroid |
| Geo.CentroidOfSinglePosition | script.js:173-179 | a feature made of a single position, however deeply nested, has that position as its centroid |
| GeoIndex.IndexNames | script.js:89-98 | the loop pushes at most one name per feature |
| GeoIndex.IndexCoords | script.js:94-97 | only listed names get a coordinate |
| GeoIndex.CoordsAreCentroids | script.js:94-97 | every coordinate in the table is the centroid of some feature carrying that name |
| GeoIndex.UnknownNeverIndexed | script.js:89-98 | "Unknown" is never pushed onto the name list and never gets a coordinate |
| GeoIndex.CoordKeysAreNames | script.js:89-98 | every name with a coordinate is on the name list |
| GeoIndex.NamesKeepRepeats | script.js:91-93 | repeated names are not removed: a listed name occurs once per feature that carries it |
| GeoIndex.LastCentroidWins | script.js:94-97 | a name's coordinate is the centroid of the last feature of that name that has one |
| GeoIndex.NoCentroidNoCoord | script.js:94-97 | a name gets no coordinate when no feature of that name has a centroid |
| GeoIndex.BuiltIndex | script.js:89-100 | the loaded name list is sorted, holds exactly the pushed names with repeats, and lacks "Unknown"; every coordinate key is on it |
| Session.Game.IndexFeature | script.js:90-97 | for one feature: a listed name is pushed and, when the feature has a centroid, written into the coordinate table over any earlier entry; the other variables are unchanged |
| Session.Game.BuildIndex | script.js:89-100 | after the loop the name list is the sort of the old list plus the listed names; the table is the old one overwritten by the loop's entries; the round state is unchanged |
| Sorting.Insert | script.js:100 | inserting adds exactly the one element |
| Sorting.InsertKeepsSorted | script.js:100 | inserting into a sorted list keeps it sorted |
| Sorting.Sort | script.js:100 | the result is sorted and a permutation of the input |
| Sorting.SortedPermutationUnique | script.js:100 | two sorted permutations of the same names are equal, so the sorted list is determined |
| Text.LexLeqTotal | script.js:100 | any two strings are ordered one way or the other |
| Text.LexLeqTransitive | script.js:100 | the string order is transitive |
| Text.LexLeqAntisymmetric | script.js:100 | strings ordered both ways are equal |
| Text.Trim | script.js:280 | the trimmed input neither starts nor ends with whitespace and is no longer than the input |
| Text.TrimIsSlice | script.js:280 | the trimmed input is a slice of the input with only whitespace around it |
| Text.TrimOfTrimmed | script.js:280 | a string without surrounding whitespace is its own trim |
| Text.Lower | script.js:283 | lower-casing keeps the length, leaves no capital letter, turns every capital into its own small letter, and keeps every character that is not a capital |
| Text.LowerIdempotent | script.js:283 | lower-casing an already lower-cased string changes nothing |
| Text.Contains | script.js:895 | `includes`: the empty string is in every string, a string is in itself, and an included string is no longer than the including one |
| Text.ContainsInfix | script.js:895 | a string includes whatever occurs in it between a prefix and a suffix |
| Text.ContainsOccurs | script.js:895 | an included string occurs in the including one between a prefix and a suffix of it |
| Session.FindName | script.js:291-293 | none exactly when no name equals the query up to case; otherwise the first such name |
| Session.Resolve | script.js:280-355 | the shortcut exactly when the trimmed input lower-cases to "testexplosion"; not found exactly when no name matches; for the first matching name: already guessed exactly when it is in this round's guesses, no target exactly when it is new and every target is done, no location exactly when it is new, a target remains and it has no coordinate, recorded exactly otherwise; a recorded guess is that first match, measured against the current target, with its arrow, exact flag and solve flag |
| Session.FindNameIgnoresCase | script.js:291-293 | two queries that lower-case alike find the same name |
| Session.FindNameOfLower | script.js:291-293 | a query finds the same name as its lower-cased form |
| Session.AnyCaseVariantSolves | script.js:280-355 | any case variant of a findable target's name, with any surrounding whitespace, records a solve of that name when it was not yet guessed |
| Session.Apply | script.js:283-358 | the shortcut moves the target index past the last target and changes nothing else; a refusal changes nothing; a recorded guess adds exactly its name and distance, counts one more guess, lowers the best distance to the guess's distance, or to 0 on a solve; solved set and stickers untouched |
| Session.Game.MakeGuess | script.js:278-368 | the outcome is Resolve's and the new state is Apply's; the index is unchanged; a consistent state stays consistent |
| Session.Game.Record | script.js:322-358 | the writes of a measured guess produce exactly Apply's state |
| Session.Reveal | script.js:516-544 | after the letter lands: the next target, no guesses, no best distance, the target's name added to the solved set, its sticker appended, the guess count unchanged |
| Session.RecordSolve | script.js:516-524 | the target's name joins the solved set and exactly one sticker with its lat, lng, image and name is appended; nothing else changes |
| Session.Advance | script.js:538-544 | the target index goes up by one and the guesses and best distance are cleared; solved set, stickers and guess count carry over |
| Session.Game.RevealLetter | script.js:516-528 | the state becomes RecordSolve then Advance; the result says whether the game is complete; consistency is kept |
| Session.Game.ContinueToNextStage | script.js:538-550 | the state becomes Advance of the old one; complete exactly when the index has passed the last target |
| Session.Game.constructor | script.js:37-50 | nothing indexed, no guess, no solve, the first target, and a consistent state |
| Session.InitialConsistent | script.js:37-50 | the initial state satisfies the state invariant |
| Session.GuessKeepsConsistent | script.js:278-368 | every guess keeps the invariant: guessed names are indexed and located, the best distance is set exactly when a guess exists, is no greater than any guess, and is one of them unless forced to 0; the solved set is the set of sticker ids |
| Session.RecordKeepsConsistent | script.js:324-358 | recording a guess of an indexed, located, not yet guessed name keeps the invariant |
| Session.RevealKeepsConsistent | script.js:516-544 | the solve bookkeeping and the advance keep the invariant |
| Session.RepeatedGuessRefused | script.js:301-304 | repeating a just-recorded guess is refused as already guessed and changes nothing |
| Session.NothingRecordedWhenComplete | script.js:305-315 | past the last target no guess is recorded, and everything except the shortcut changes nothing |
| Session.GuessKeepsOnTrack | script.js:278-358 | while a target remains, the solved set and the stickers are exactly those of the targets before it, in order; every guess, missed, refused, repeated or solving, keeps this |
| Session.SolveKeepsOnTrack | script.js:516-544 | after a solve of the current target, the bookkeeping and the advance keep the solved set and stickers equal to those of the targets before the new current one |
| Session.SolveByNameNotDistance | script.js:351-358 | naming the target is a solve and sets the best distance to 0; a positive measured distance is not flagged exact |
| Session.TypingTargetSolves | script.js:278-355 | typing a findable target's name when it is not yet guessed records a solve of that name |
| Session.RoundSolvesTarget | script.js:351-364 | in a fresh round, typing the target's name leads to a fresh round at the next target with one more solve, one more sticker and one more guess |
| Session.PerfectRound | script.js:351-364 | from the state after k perfect rounds, one more perfect round gives the state after k + 1 |
| Session.PerfectPlay | script.js:278-368 | typing each target's name in turn gives, after k rounds, target index k, no guesses, the first k names solved, their k stickers in order, no best distance and k guesses |
| Session.TargetNamesTypable | script.js:8-18 | no target name has surrounding whitespace or spells the shortcut |
| Feedback.DirectionArrow | script.js:202-217 | each arrow is returned exactly on its own half-open 45-degree sector, and the target symbol never is |
| Feedback.ArrowIsCompassSector | script.js:207-215 | on [-180, 180] the arrow is the compass point numbered floor((angle + 22.5) / 45) mod 8 |
| Feedback.Round | script.js:237 | the rounded value is within one half of its argument |
| Feedback.DistanceColor | script.js:222-249 | 12000 km or more gives rgb(255, 228, 236); 0 gives rgb(199, 21, 133); 6000 gives rgb(255, 105, 180); red is 255 on the far half; each channel stays between its two ends |
| Feedback.DistanceColorMonotone | script.js:225-246 | each channel is non-decreasing in the distance |
| Feedback.RoundMonotone | script.js:237-245 | rounding is non-decreasing |
| Session.CountryColor | script.js:254-273 | solved in any round gives #FF1493; otherwise guessed at distance 0 gives #FF1493 and guessed at another distance gives the gradient; not guessed gives #98D176 |
| Session.RevealedTargetStaysSolved | script.js:254-260 | a country in the solved set keeps the solved colour after any guess outcome and after any letter landing, so through all later rounds |
| Session.RevealShowsSolved | script.js:254-260 | once a target's letter lands, its country shows the solved colour |
| Autocomplete.Utf16Length | script.js:889 | the length `query.length` reads: between one and two code units per character, one each when every character is in the Basic Multilingual Plane; under two exactly for the empty string and a single Basic Multilingual Plane character, so one character above it already counts two |
| Autocomplete.Matches | script.js:895 | a name matches every case variant of itself, and a matching query is no longer than the name |
| Autocomplete.FilterMatches | script.js:894-896 | exactly the matching names, in name-list order, each as often as in the list |
| Autocomplete.Suggestions | script.js:889-896 | no suggestions for a query under two UTF-16 code units; otherwise exactly the first min(8, number of matches) matching names, repeats included, in name-list order, so all of them when fewer than eight |

## Left out

- The haversine distance (`getDistance`) and the `atan2` bearing are parameters
  of the model. No property of spherical geometry is proved.
- IEEE double arithmetic: the model computes with exact reals. Rounding of the
  centroid mean, of the gradient and of the distance is not modelled.
- The fetch of the world atlas and its TopoJSON conversion are left out. The
  features arrive as a sequence of values.
- The globe, the camera, the DOM updates, the error messages, the guess
  history, the event wiring, the timers and animations, the physics and
  the `Math.random` effects of the finale are all left out.
- The flag, message and colour tables and `getFlag` are left out. They are data
  with no logic.
- Text.Lower: `toLowerCase` is modelled for Basic Latin and Latin-1 letters only.
  The other Unicode case mappings are left out.
- Text.Contains: `includes` compares UTF-16 code units; over code points the test is the same for
  well-formed strings, so only lone surrogates, which a Dafny string cannot hold, are left out.
- Text.LexLeq: orders by code point. JavaScript compares UTF-16 code units, which
  differs only for characters outside the Basic Multilingual Plane.
- Feedback.DistanceColor: returns the three channels, not the `rgb(r, g, b)`
  text.
- Feedback.DirectionArrow: returns a compass point, not the emoji text.
- Session.Game.RevealLetter: the 500 ms, 1500 ms and 800 ms delays between a
  solve and its bookkeeping are left out. A guess made during those delays is
  not modelled, and the bookkeeping happens at once.
- Session.Game.BuildIndex: `countryCoords` is a plain object in the source, so a
  name such as `constructor` would see an inherited property. The model's table
  is a map without inherited keys.
- The `try`/`catch` in `getCentroid` is left out. Over the datatype of nested
  arrays, nothing in it can throw.
