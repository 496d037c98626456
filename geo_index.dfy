/**
 * The name list and the name-to-coordinate table the game builds from the
 * dataset's features, feature by feature, in dataset order.
 */
module GeoIndex {
  import opened Options
  import opened Geo
  import opened Sorting

  /** The guard of the build loop: a truthy name other than "Unknown". */
  predicate Listed(name: string) {
    name != "" && name != UNKNOWN
  }

  function NameOf(f: Feature): string {
    CountryName(f.properties)
  }

  /**
   * The names the build loop pushes, in dataset order: one entry per feature with
   * a listed name, repeats included.
   */
  function IndexNames(fs: seq<Feature>): (r: seq<string>)
    ensures |r| <= |fs|
  {
    if fs == [] then []
    else
      var name := NameOf(fs[|fs| - 1]);
      IndexNames(fs[..|fs| - 1]) + (if Listed(name) then [name] else [])
  }

  /**
   * The coordinate table the build loop writes: each feature with a listed name
   * and a centroid sets its name's entry, so a later feature overwrites an
   * earlier one of the same name.
   */
  function IndexCoords(fs: seq<Feature>): (r: map<string, LatLng>)
    ensures forall n :: n in r ==> Listed(n)
  {
    if fs == [] then map[]
    else
      var f := fs[|fs| - 1];
      var before := IndexCoords(fs[..|fs| - 1]);
      if Listed(NameOf(f)) && CentroidOf(f).Some? then before[NameOf(f) := CentroidOf(f).value]
      else before
  }

  /** What one more feature adds to the name list and the coordinate table. */
  lemma IndexStep(fs: seq<Feature>, i: nat)
    requires i < |fs|
    ensures IndexNames(fs[..i + 1]) == IndexNames(fs[..i]) + (if Listed(NameOf(fs[i])) then [NameOf(fs[i])] else [])
    ensures IndexCoords(fs[..i + 1]) ==
              if Listed(NameOf(fs[i])) && CentroidOf(fs[i]).Some?
              then IndexCoords(fs[..i])[NameOf(fs[i]) := CentroidOf(fs[i]).value]
              else IndexCoords(fs[..i])
  {
    assert fs[..i + 1][..i] == fs[..i];
  }

  /** Every coordinate in the table is the centroid of some feature carrying that name. */
  lemma {:induction false} CoordsAreCentroids(fs: seq<Feature>, n: string)
    requires n in IndexCoords(fs)
    ensures exists k :: 0 <= k < |fs| && NameOf(fs[k]) == n && CentroidOf(fs[k]) == Some(IndexCoords(fs)[n])
  {
    var f := fs[|fs| - 1];
    var pre := fs[..|fs| - 1];
    if Listed(NameOf(f)) && CentroidOf(f).Some? && NameOf(f) == n {
      assert NameOf(fs[|fs| - 1]) == n;
    } else {
      CoordsAreCentroids(pre, n);
      var k :| 0 <= k < |pre| && NameOf(pre[k]) == n && CentroidOf(pre[k]) == Some(IndexCoords(pre)[n]);
      assert fs[k] == pre[k];
    }
  }

  /** "Unknown" is never pushed onto the name list nor given a coordinate. */
  lemma {:induction false} UnknownNeverIndexed(fs: seq<Feature>)
    ensures UNKNOWN !in IndexNames(fs)
    ensures UNKNOWN !in IndexCoords(fs)
  {
    if fs != [] {
      UnknownNeverIndexed(fs[..|fs| - 1]);
    }
  }

  /** Every name with a coordinate is on the name list. */
  lemma {:induction false} CoordKeysAreNames(fs: seq<Feature>)
    ensures forall n :: n in IndexCoords(fs) ==> n in IndexNames(fs)
  {
    if fs != [] {
      CoordKeysAreNames(fs[..|fs| - 1]);
    }
  }

  /** The number of features whose name is `n`. */
  function CountNamed(fs: seq<Feature>, n: string): nat {
    if fs == [] then 0
    else CountNamed(fs[..|fs| - 1], n) + (if NameOf(fs[|fs| - 1]) == n then 1 else 0)
  }

  /** Repeated names are not removed: a listed name occurs once per feature that carries it. */
  lemma {:induction false} NamesKeepRepeats(fs: seq<Feature>, n: string)
    requires Listed(n)
    ensures multiset(IndexNames(fs))[n] == CountNamed(fs, n)
  {
    if fs != [] {
      NamesKeepRepeats(fs[..|fs| - 1], n);
    }
  }

  /**
   * A feature that does not write `n`'s entry leaves it as the features before
   * it left it.
   */
  lemma OtherFeatureKeepsCoord(fs: seq<Feature>, n: string)
    requires fs != []
    requires NameOf(fs[|fs| - 1]) != n || CentroidOf(fs[|fs| - 1]).None?
    ensures n in IndexCoords(fs) <==> n in IndexCoords(fs[..|fs| - 1])
    ensures n in IndexCoords(fs) ==> IndexCoords(fs)[n] == IndexCoords(fs[..|fs| - 1])[n]
  {
  }

  /**
   * A name has a coordinate exactly when some feature carrying it has a
   * centroid, and the coordinate is the centroid of the LAST such feature.
   */
  lemma {:induction false} LastCentroidWins(fs: seq<Feature>, n: string, j: nat)
    requires Listed(n) && j < |fs| && NameOf(fs[j]) == n && CentroidOf(fs[j]).Some?
    requires forall k :: j < k < |fs| && NameOf(fs[k]) == n ==> CentroidOf(fs[k]).None?
    ensures n in IndexCoords(fs) && IndexCoords(fs)[n] == CentroidOf(fs[j]).value
  {
    var last := |fs| - 1;
    if j < last {
      var pre := fs[..last];
      forall k | j < k < |pre| && NameOf(pre[k]) == n ensures CentroidOf(pre[k]).None? {
        assert pre[k] == fs[k];
      }
      assert pre[j] == fs[j];
      LastCentroidWins(pre, n, j);
      OtherFeatureKeepsCoord(fs, n);
    }
  }

  /** Without a feature of that name having a centroid, a name gets no coordinate. */
  lemma {:induction false} NoCentroidNoCoord(fs: seq<Feature>, n: string)
    requires forall k :: 0 <= k < |fs| && NameOf(fs[k]) == n ==> CentroidOf(fs[k]).None?
    ensures n !in IndexCoords(fs)
  {
    if fs != [] {
      var pre := fs[..|fs| - 1];
      forall k | 0 <= k < |pre| && NameOf(pre[k]) == n ensures CentroidOf(pre[k]).None? {
        assert pre[k] == fs[k];
      }
      NoCentroidNoCoord(pre, n);
    }
  }

  /**
   * The index a fresh page builds: the sorted name list holds exactly the pushed
   * names, repeats included, is in ascending order and lacks "Unknown"; every
   * name with a coordinate is on it and "Unknown" has none.
   */
  lemma BuiltIndex(fs: seq<Feature>)
    ensures var names := Sort(IndexNames(fs));
            && Sorted(names) && multiset(names) == multiset(IndexNames(fs))
            && UNKNOWN !in names && UNKNOWN !in IndexCoords(fs)
            && forall n :: n in IndexCoords(fs) ==> n in names
  {
    var names := Sort(IndexNames(fs));
    UnknownNeverIndexed(fs);
    CoordKeysAreNames(fs);
    assert UNKNOWN !in multiset(names);
    forall n | n in IndexCoords(fs) ensures n in names {
      assert n in multiset(IndexNames(fs));
    }
  }
}
