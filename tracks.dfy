/** Track-list construction: how each script turns a folder listing into the
    list of `.flac` paths it queues. A listing (`os.listdir`) is a sequence of
    names, a walk (`os.walk`) a sequence of (root, files) entries; both are
    inputs. `random.shuffle` is Python's Fisher-Yates loop, with the random
    draws given as input. */
module Tracks {
  import opened Text
  import opened Sorting

  /** `[os.path.join(folder, f) for f in names if f.endswith('.flac')]`. */
  function FlacPaths(folder: string, names: seq<string>): (r: seq<string>)
    ensures |r| <= |names|
  {
    if names == [] then []
    else if IsFlac(names[0]) then [Join(folder, names[0])] + FlacPaths(folder, names[1..])
    else FlacPaths(folder, names[1..])
  }

  /** The paths are exactly the joins of the `.flac` names. */
  lemma {:induction false} FlacPathsMembers(folder: string, names: seq<string>, x: string)
    ensures x in FlacPaths(folder, names) <==> exists n :: n in names && IsFlac(n) && x == Join(folder, n)
  {
    if names != [] {
      FlacPathsMembers(folder, names[1..], x);
      assert forall n :: n in names <==> n == names[0] || n in names[1..];
    }
  }

  lemma {:induction false} FlacPathsConcat(folder: string, a: seq<string>, b: seq<string>)
    ensures FlacPaths(folder, a + b) == FlacPaths(folder, a) + FlacPaths(folder, b)
  {
    if a == [] {
      assert a + b == b;
    } else {
      assert (a + b)[0] == a[0];
      assert (a + b)[1..] == a[1..] + b;
      FlacPathsConcat(folder, a[1..], b);
    }
  }

  /** Taking one name out of the list takes its path (if any) out of the paths. */
  lemma FlacPathsRemove(folder: string, b: seq<string>, k: nat)
    requires k < |b|
    ensures multiset(FlacPaths(folder, b))
      == multiset(FlacPaths(folder, [b[k]])) + multiset(FlacPaths(folder, b[..k] + b[k + 1..]))
  {
    assert b == b[..k] + ([b[k]] + b[k + 1..]);
    FlacPathsConcat(folder, b[..k], [b[k]] + b[k + 1..]);
    FlacPathsConcat(folder, [b[k]], b[k + 1..]);
    FlacPathsConcat(folder, b[..k], b[k + 1..]);
  }

  /** Filtering and joining a permutation of the names gives a permutation of the paths. */
  lemma {:induction false} FlacPathsPermutation(folder: string, a: seq<string>, b: seq<string>)
    requires multiset(a) == multiset(b)
    ensures multiset(FlacPaths(folder, a)) == multiset(FlacPaths(folder, b))
  {
    if a == [] {
      assert |b| == 0 by { assert |multiset(b)| == |multiset(a)|; }
    } else {
      assert a[0] in multiset(b);
      var k :| 0 <= k < |b| && b[k] == a[0];
      var rest := b[..k] + b[k + 1..];
      assert multiset(a[1..]) == multiset(rest) by {
        assert a == [a[0]] + a[1..];
        assert b == b[..k] + [b[k]] + b[k + 1..];
        assert multiset(a[1..]) == multiset(a) - multiset{a[0]};
        assert multiset(rest) == multiset(b) - multiset{b[k]};
      }
      FlacPathsPermutation(folder, a[1..], rest);
      FlacPathsRemove(folder, b, k);
      FlacPathsRemove(folder, a, 0);
      assert a[..0] + a[1..] == a[1..];
    }
  }

  lemma StrLeIsTotalOrder()
    ensures TotalOrder(StrLe)
  {
    forall a, b | StrLe(a, b) && StrLe(b, a) ensures a == b { StrLeAntisymmetric(a, b); }
    forall a, b, c | StrLe(a, b) && StrLe(b, c) ensures StrLe(a, c) { StrLeTransitive(a, b, c); }
    forall a, b ensures StrLe(a, b) || StrLe(b, a) { StrLeTotal(a, b); }
  }

  /** Joining a sorted list of names to one folder keeps it sorted. */
  lemma {:induction false} FlacPathsSorted(folder: string, names: seq<string>)
    requires Sorted(names, StrLe)
    ensures Sorted(FlacPaths(folder, names), StrLe)
  {
    if names != [] {
      var tail := FlacPaths(folder, names[1..]);
      FlacPathsSorted(folder, names[1..]);
      if IsFlac(names[0]) {
        forall j | 0 <= j < |tail| ensures StrLe(Join(folder, names[0]), tail[j]) {
          FlacPathsMembers(folder, names[1..], tail[j]);
          var n :| n in names[1..] && IsFlac(n) && tail[j] == Join(folder, n);
          JoinPreservesOrder(folder, names[0], n);
        }
      }
    }
  }

  /** The second `play_album` unshuffled: `sorted(os.listdir(album_path))`, then
      the `.flac` names joined to the album path, in that order. */
  function AlbumTracks(albumPath: string, listing: seq<string>): seq<string>
  {
    FlacPaths(albumPath, Sort(listing, StrLe))
  }

  /** works.py and test-pn532.py: filter and join first, then sort the paths. */
  function SortedPaths(folder: string, listing: seq<string>): seq<string>
  {
    Sort(FlacPaths(folder, listing), StrLe)
  }

  /** Sorting the names then filtering (play_album) and filtering then sorting
      the joined paths (works.py, test-pn532.py) give the same list: the
      `.flac` paths of the folder, each once per listed name, in ascending order. */
  lemma AlbumTracksIsSortedPaths(albumPath: string, listing: seq<string>)
    ensures AlbumTracks(albumPath, listing) == SortedPaths(albumPath, listing)
    ensures Sorted(AlbumTracks(albumPath, listing), StrLe)
    ensures multiset(AlbumTracks(albumPath, listing)) == multiset(FlacPaths(albumPath, listing))
  {
    StrLeIsTotalOrder();
    SortSorted(listing, StrLe);
    FlacPathsSorted(albumPath, Sort(listing, StrLe));
    FlacPathsPermutation(albumPath, Sort(listing, StrLe), listing);
    SortSorted(FlacPaths(albumPath, listing), StrLe);
    SortedUnique(AlbumTracks(albumPath, listing), SortedPaths(albumPath, listing), StrLe);
  }

  /** test-pn532.py's `play_all_songs_in_order`: one path per `.flac` entry,
      exactly the `.flac` entries joined to the folder, in ascending order. */
  lemma SortedPathsSpec(folder: string, listing: seq<string>, x: string)
    ensures |SortedPaths(folder, listing)| == |FlacPaths(folder, listing)|
    ensures Sorted(SortedPaths(folder, listing), StrLe)
    ensures x in SortedPaths(folder, listing) <==> exists n :: n in listing && IsFlac(n) && x == Join(folder, n)
  {
    StrLeIsTotalOrder();
    SortSorted(FlacPaths(folder, listing), StrLe);
    FlacPathsMembers(folder, listing, x);
    assert x in SortedPaths(folder, listing) <==> x in multiset(SortedPaths(folder, listing));
    assert x in FlacPaths(folder, listing) <==> x in multiset(FlacPaths(folder, listing));
  }

  /** The key of final.py, new.py and final-broken-modified.py:
      `int(f.split('.')[0]) if f.split('.')[0].isdigit() else 99`. */
  function TrackKey(f: string): nat
  {
    var prefix := BeforeFirstDot(f);
    if AllDigits(prefix) then DecimalValue(prefix) else 99
  }

  /** The order of the `(key, path)` tuples that `sorted(zip(track_numbers, songs))` compares. */
  predicate KeyLe(a: string, b: string)
  {
    TrackKey(a) < TrackKey(b) || (TrackKey(a) == TrackKey(b) && StrLe(a, b))
  }

  lemma KeyLeIsTotalOrder()
    ensures TotalOrder(KeyLe)
  {
    forall a, b | KeyLe(a, b) && KeyLe(b, a) ensures a == b { StrLeAntisymmetric(a, b); }
    forall a, b, c | KeyLe(a, b) && KeyLe(b, c) ensures KeyLe(a, c) {
      if TrackKey(a) == TrackKey(b) == TrackKey(c) { StrLeTransitive(a, b, c); }
    }
    forall a, b ensures KeyLe(a, b) || KeyLe(b, a) { StrLeTotal(a, b); }
  }

  /** `play_all_songs_in_order` of final.py, new.py and final-broken-modified.py,
      as written: the key is computed from the JOINED path. */
  function TrackNumberOrder(folder: string, listing: seq<string>): seq<string>
  {
    Sort(FlacPaths(folder, listing), KeyLe)
  }

  /** The result holds the folder's `.flac` paths and is ordered by `(key, path)`. */
  lemma TrackNumberOrderSpec(folder: string, listing: seq<string>)
    ensures multiset(TrackNumberOrder(folder, listing)) == multiset(FlacPaths(folder, listing))
    ensures Sorted(TrackNumberOrder(folder, listing), KeyLe)
  {
    KeyLeIsTotalOrder();
    SortSorted(FlacPaths(folder, listing), KeyLe);
  }

  lemma {:induction false} BeforeFirstDotConcat(a: string, b: string)
    ensures BeforeFirstDot(a + b) == if '.' in a then BeforeFirstDot(a) else a + BeforeFirstDot(b)
  {
    if a == [] {
      assert a + b == b;
    } else {
      assert (a + b)[0] == a[0];
      assert (a + b)[1..] == a[1..] + b;
      BeforeFirstDotConcat(a[1..], b);
      assert '.' in a <==> a[0] == '.' || '.' in a[1..];
      if a[0] != '.' && '.' !in a[1..] {
        assert a == [a[0]] + a[1..];
      }
    }
  }

  /** Every path joined to one folder gets the same key: the text before the
      first '.' either lies in the folder name or runs past the '/'. */
  lemma JoinedKeyConstant(folder: string, n1: string, n2: string)
    ensures TrackKey(Join(folder, n1)) == TrackKey(Join(folder, n2))
  {
    assert Join(folder, n1) == (folder + "/") + n1;
    assert Join(folder, n2) == (folder + "/") + n2;
    BeforeFirstDotConcat(folder + "/", n1);
    BeforeFirstDotConcat(folder + "/", n2);
    if '.' !in folder + "/" {
      assert (folder + "/" + BeforeFirstDot(n1))[|folder|] == '/';
      assert (folder + "/" + BeforeFirstDot(n2))[|folder|] == '/';
    } else {
      BeforeFirstDotConcat(folder, "/");
    }
  }

  /** As written, the track-number sort is plain path order: it sorts
      "music/10.flac" before "music/2.flac". */
  lemma TrackNumberOrderIsPathOrder(folder: string, listing: seq<string>)
    ensures TrackNumberOrder(folder, listing) == SortedPaths(folder, listing)
  {
    var r := TrackNumberOrder(folder, listing);
    TrackNumberOrderSpec(folder, listing);
    forall i, j | 0 <= i < j < |r| ensures StrLe(r[i], r[j]) {
      assert KeyLe(r[i], r[j]);
      assert r[i] in multiset(FlacPaths(folder, listing)) && r[j] in multiset(FlacPaths(folder, listing));
      FlacPathsMembers(folder, listing, r[i]);
      FlacPathsMembers(folder, listing, r[j]);
      var ni :| ni in listing && IsFlac(ni) && r[i] == Join(folder, ni);
      var nj :| nj in listing && IsFlac(nj) && r[j] == Join(folder, nj);
      JoinedKeyConstant(folder, ni, nj);
    }
    StrLeIsTotalOrder();
    SortSorted(FlacPaths(folder, listing), StrLe);
    SortedUnique(r, SortedPaths(folder, listing), StrLe);
  }

  lemma TwoFlacPaths(folder: string, a: string, b: string)
    requires IsFlac(a) && IsFlac(b)
    ensures FlacPaths(folder, [a, b]) == [Join(folder, a), Join(folder, b)]
  {
    assert [a, b][1..] == [b];
  }

  lemma TrackNumberOrderMisordersTracks()
    ensures TrackNumberOrder("music", ["2.flac", "10.flac"]) == [Join("music", "10.flac"), Join("music", "2.flac")]
  {
    TrackNumberOrderIsPathOrder("music", ["2.flac", "10.flac"]);
    TwoFlacPaths("music", "2.flac", "10.flac");
    JoinPreservesOrder("music", "2.flac", "10.flac");
    assert !StrLe("2.flac", "10.flac");
    SortTwo(Join("music", "2.flac"), Join("music", "10.flac"), StrLe);
  }

  /** The evidently intended order: `(key, name)` with the key read from the
      bare file name rather than the joined path. */
  predicate NameKeyLe(a: string, b: string)
  {
    TrackKey(a) < TrackKey(b) || (TrackKey(a) == TrackKey(b) && StrLe(a, b))
  }

  lemma NameKeyLeIsTotalOrder()
    ensures TotalOrder(NameKeyLe)
  {
    forall a, b | NameKeyLe(a, b) && NameKeyLe(b, a) ensures a == b { StrLeAntisymmetric(a, b); }
    forall a, b, c | NameKeyLe(a, b) && NameKeyLe(b, c) ensures NameKeyLe(a, c) {
      if TrackKey(a) == TrackKey(b) == TrackKey(c) { StrLeTransitive(a, b, c); }
    }
    forall a, b ensures NameKeyLe(a, b) || NameKeyLe(b, a) { StrLeTotal(a, b); }
  }

  /** The listing sorted by (track number of the name, name). */
  function OrderedNames(listing: seq<string>): seq<string>
  {
    Sort(listing, NameKeyLe)
  }

  /** Corrected track-number order: names sorted by track number, then the
      `.flac` ones joined to the folder. */
  function TrackNumberOrderByName(folder: string, listing: seq<string>): seq<string>
  {
    FlacPaths(folder, OrderedNames(listing))
  }

  /** `x` and `y` are joins to `folder` of two names in `le` order. */
  ghost predicate JoinedInOrder(folder: string, x: string, y: string, le: (string, string) -> bool)
  {
    exists ni, nj :: x == Join(folder, ni) && y == Join(folder, nj) && le(ni, nj)
  }

  /** Filtering and joining keeps the order of the names: of any two kept
      paths, the earlier comes from a name `le` to the later one's. */
  lemma {:induction false} FlacPathsKeepOrder(folder: string, names: seq<string>, le: (string, string) -> bool)
    requires Sorted(names, le)
    ensures forall i, j :: 0 <= i < j < |FlacPaths(folder, names)| ==>
      JoinedInOrder(folder, FlacPaths(folder, names)[i], FlacPaths(folder, names)[j], le)
  {
    if names != [] {
      var r := FlacPaths(folder, names);
      var tail := FlacPaths(folder, names[1..]);
      FlacPathsKeepOrder(folder, names[1..], le);
      forall i, j | 0 <= i < j < |r|
        ensures JoinedInOrder(folder, r[i], r[j], le)
      {
        if IsFlac(names[0]) {
          assert r == [Join(folder, names[0])] + tail;
          if i == 0 {
            assert r[j] == tail[j - 1];
            FlacPathsMembers(folder, names[1..], r[j]);
            var n :| n in names[1..] && IsFlac(n) && r[j] == Join(folder, n);
            var q :| 0 <= q < |names[1..]| && names[1..][q] == n;
            assert le(names[0], names[q + 1]);
            assert r[0] == Join(folder, names[0]) && r[j] == Join(folder, names[q + 1]);
          } else {
            assert r[i] == tail[i - 1] && r[j] == tail[j - 1];
            assert JoinedInOrder(folder, tail[i - 1], tail[j - 1], le);
          }
        } else {
          assert r == tail;
          assert JoinedInOrder(folder, tail[i], tail[j], le);
        }
      }
    }
  }

  /** The corrected order holds the folder's `.flac` paths, and of any two
      of them the earlier comes from a name whose `(track number, name)`
      is no greater. */
  lemma TrackNumberOrderByNameSpec(folder: string, listing: seq<string>)
    ensures multiset(TrackNumberOrderByName(folder, listing)) == multiset(FlacPaths(folder, listing))
    ensures forall i, j :: 0 <= i < j < |TrackNumberOrderByName(folder, listing)| ==>
      JoinedInOrder(folder, TrackNumberOrderByName(folder, listing)[i], TrackNumberOrderByName(folder, listing)[j], NameKeyLe)
  {
    NameKeyLeIsTotalOrder();
    SortSorted(listing, NameKeyLe);
    FlacPathsPermutation(folder, OrderedNames(listing), listing);
    FlacPathsKeepOrder(folder, OrderedNames(listing), NameKeyLe);
  }

  /** With the corrected key, track 2 plays before track 10. */
  lemma TrackNumberOrderByNameExample()
    ensures TrackNumberOrderByName("music", ["2.flac", "10.flac"]) == [Join("music", "2.flac"), Join("music", "10.flac")]
  {
    assert BeforeFirstDot("2.flac") == "2";
    assert BeforeFirstDot("10.flac") == "10";
    assert NameKeyLe("2.flac", "10.flac");
    SortTwo("2.flac", "10.flac", NameKeyLe);
    TwoFlacPaths("music", "2.flac", "10.flac");
  }
}
