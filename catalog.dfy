/** The catalog the manager caches: sounds and categories as the plugin's
    records describe them, the name order the accessors sort by, and the
    dictionaries built from a transport listing. */
module Catalog {

  /** `SoundpadSound`: a display title and the index Soundpad assigned. */
  datatype Sound = Sound(name: string, index: int)

  /** `SoundpadCategory`: a name, Soundpad's category index and its sounds in
      Soundpad's order. */
  datatype Category = Category(name: string, index: int, sounds: seq<Sound>)

  function SoundTitle(s: Sound): string { s.name }
  function SoundIndex(s: Sound): int { s.index }
  function CategoryName(c: Category): string { c.name }
  function CategoryItself(c: Category): Category { c }

  /** The index of every sound of a list, in list order. */
  function Indices(sounds: seq<Sound>): (r: seq<int>)
    ensures |r| == |sounds|
    ensures forall i :: 0 <= i < |sounds| ==> r[i] == sounds[i].index
  {
    if sounds == [] then [] else [sounds[0].index] + Indices(sounds[1..])
  }

  // ---------------------------------------------------------------------
  // Name order: ordinal comparison of titles, character by character.

  predicate StrLe(a: string, b: string)
  {
    a == [] || (b != [] && (a[0] < b[0] || (a[0] == b[0] && StrLe(a[1..], b[1..]))))
  }

  lemma {:induction false} StrLeReflexive(a: string)
    ensures StrLe(a, a)
  {
    if a != [] { StrLeReflexive(a[1..]); }
  }

  lemma {:induction false} StrLeTotal(a: string, b: string)
    ensures StrLe(a, b) || StrLe(b, a)
  {
    if a != [] && b != [] && a[0] == b[0] { StrLeTotal(a[1..], b[1..]); }
  }

  lemma {:induction false} StrLeAntisymmetric(a: string, b: string)
    requires StrLe(a, b) && StrLe(b, a)
    ensures a == b
  {
    if a != [] && b != [] {
      StrLeAntisymmetric(a[1..], b[1..]);
      assert a == [a[0]] + a[1..] && b == [b[0]] + b[1..];
    }
  }

  lemma {:induction false} StrLeTransitive(a: string, b: string, c: string)
    requires StrLe(a, b) && StrLe(b, c)
    ensures StrLe(a, c)
  {
    if a != [] && b != [] && c != [] && a[0] == b[0] == c[0] {
      StrLeTransitive(a[1..], b[1..], c[1..]);
    }
  }

  // ---------------------------------------------------------------------
  // Sorted projections of the cached dictionaries.

  predicate IsLeast(k: string, ks: set<string>)
  {
    k in ks && forall y :: y in ks ==> StrLe(k, y)
  }

  lemma {:induction false} LeastExists(ks: set<string>)
    requires ks != {}
    ensures exists k :: IsLeast(k, ks)
    decreases |ks|
  {
    var x :| x in ks;
    if ks == {x} {
      StrLeReflexive(x);
      assert IsLeast(x, ks);
    } else {
      LeastExists(ks - {x});
      var m :| IsLeast(m, ks - {x});
      StrLeTotal(m, x);
      if StrLe(m, x) {
        assert IsLeast(m, ks);
      } else {
        StrLeReflexive(x);
        forall y | y in ks ensures StrLe(x, y) {
          if y != x { StrLeTransitive(x, m, y); }
        }
        assert IsLeast(x, ks);
      }
    }
  }

  lemma LeastUnique(ks: set<string>)
    ensures forall a, b :: IsLeast(a, ks) && IsLeast(b, ks) ==> a == b
  {
    forall a, b | IsLeast(a, ks) && IsLeast(b, ks) ensures a == b {
      StrLeAntisymmetric(a, b);
    }
  }

  function Least(ks: set<string>): (k: string)
    requires ks != {}
    ensures IsLeast(k, ks)
  {
    LeastExists(ks);
    LeastUnique(ks);
    var k :| IsLeast(k, ks);
    k
  }

  /** Strictly ascending: ordered and without repetition. */
  predicate StrictlyAscending(s: seq<string>)
  {
    forall i, j :: 0 <= i < j < |s| ==> StrLe(s[i], s[j]) && s[i] != s[j]
  }

  /** The keys of a dictionary in ascending order. */
  function SortedKeys(ks: set<string>): (r: seq<string>)
    ensures |r| == |ks|
    ensures forall i :: 0 <= i < |r| ==> r[i] in ks
    ensures forall k :: k in ks ==> k in r
    ensures StrictlyAscending(r)
    decreases |ks|
  {
    if ks == {} then []
    else
      var k := Least(ks);
      [k] + SortedKeys(ks - {k})
  }

  function Names(sounds: seq<Sound>): (r: seq<string>)
    ensures |r| == |sounds|
    ensures forall i :: 0 <= i < |sounds| ==> r[i] == sounds[i].name
  {
    if sounds == [] then [] else [sounds[0].name] + Names(sounds[1..])
  }

  function CategoryNames(cats: seq<Category>): (r: seq<string>)
    ensures |r| == |cats|
    ensures forall i :: 0 <= i < |cats| ==> r[i] == cats[i].name
  {
    if cats == [] then [] else [cats[0].name] + CategoryNames(cats[1..])
  }

  /** The cached sound under each of `ks`, named after its key. */
  function SoundsAt(ks: seq<string>, m: map<string, int>): (r: seq<Sound>)
    requires forall i :: 0 <= i < |ks| ==> ks[i] in m
    ensures |r| == |ks|
    ensures forall i :: 0 <= i < |ks| ==> r[i] == Sound(ks[i], m[ks[i]])
  {
    if ks == [] then [] else [Sound(ks[0], m[ks[0]])] + SoundsAt(ks[1..], m)
  }

  lemma {:induction false} SoundsAtCovers(ks: seq<string>, m: map<string, int>)
    requires forall i :: 0 <= i < |ks| ==> ks[i] in m
    ensures Names(SoundsAt(ks, m)) == ks
    ensures forall t :: t in ks ==> Sound(t, m[t]) in SoundsAt(ks, m)
  {
    if ks != [] {
      SoundsAtCovers(ks[1..], m);
      assert SoundsAt(ks, m) == [Sound(ks[0], m[ks[0]])] + SoundsAt(ks[1..], m);
      forall t | t in ks ensures Sound(t, m[t]) in SoundsAt(ks, m) {
        if t != ks[0] {
          assert t in ks[1..];
        }
      }
    }
  }

  lemma SortedSounds(m: map<string, int>)
    ensures var r := SoundsAt(SortedKeys(m.Keys), m);
      && |r| == |m|
      && StrictlyAscending(Names(r))
      && (forall i :: 0 <= i < |r| ==> r[i].name in m && r[i].index == m[r[i].name])
      && (forall t :: t in m ==> Sound(t, m[t]) in r)
  {
    var ks := SortedKeys(m.Keys);
    SoundsAtCovers(ks, m);
    var r := SoundsAt(ks, m);
    assert |m.Keys| == |m|;
    forall t | t in m ensures Sound(t, m[t]) in r {
      assert t in m.Keys;
    }
  }

  /** `GetAllSounds`' list: one sound per cached title, ascending by title,
      carrying the index cached for that title. */
  function AllSoundsOf(m: map<string, int>): (r: seq<Sound>)
    ensures |r| == |m|
    ensures StrictlyAscending(Names(r))
    ensures forall i :: 0 <= i < |r| ==> r[i].name in m && r[i].index == m[r[i].name]
    ensures forall t :: t in m ==> Sound(t, m[t]) in r
  {
    SortedSounds(m);
    SoundsAt(SortedKeys(m.Keys), m)
  }

  /** The cached category under each of `ks`, renamed to its key. */
  function CategoriesAt(ks: seq<string>, m: map<string, Category>): (r: seq<Category>)
    requires forall i :: 0 <= i < |ks| ==> ks[i] in m
    ensures |r| == |ks|
    ensures forall i :: 0 <= i < |ks| ==> r[i] == Category(ks[i], m[ks[i]].index, m[ks[i]].sounds)
  {
    if ks == [] then [] else [Category(ks[0], m[ks[0]].index, m[ks[0]].sounds)] + CategoriesAt(ks[1..], m)
  }

  lemma {:induction false} CategoriesAtCovers(ks: seq<string>, m: map<string, Category>)
    requires forall i :: 0 <= i < |ks| ==> ks[i] in m
    ensures CategoryNames(CategoriesAt(ks, m)) == ks
    ensures forall n :: n in ks ==> Category(n, m[n].index, m[n].sounds) in CategoriesAt(ks, m)
  {
    if ks != [] {
      CategoriesAtCovers(ks[1..], m);
      assert CategoriesAt(ks, m) == [Category(ks[0], m[ks[0]].index, m[ks[0]].sounds)] + CategoriesAt(ks[1..], m);
      forall n | n in ks ensures Category(n, m[n].index, m[n].sounds) in CategoriesAt(ks, m) {
        if n != ks[0] {
          assert n in ks[1..];
        }
      }
    }
  }

  lemma SortedCategories(m: map<string, Category>)
    ensures var r := CategoriesAt(SortedKeys(m.Keys), m);
      && |r| == |m|
      && StrictlyAscending(CategoryNames(r))
      && (forall i :: 0 <= i < |r| ==> r[i].name in m && r[i].index == m[r[i].name].index
                                       && r[i].sounds == m[r[i].name].sounds)
      && (forall n :: n in m ==> Category(n, m[n].index, m[n].sounds) in r)
  {
    var ks := SortedKeys(m.Keys);
    CategoriesAtCovers(ks, m);
    var r := CategoriesAt(ks, m);
    assert |m.Keys| == |m|;
    forall n | n in m ensures Category(n, m[n].index, m[n].sounds) in r {
      assert n in m.Keys;
    }
  }

  /** `GetAllCategories`' list: one category per cached name, ascending by
      name, carrying the cached category's index and sounds. */
  function AllCategoriesOf(m: map<string, Category>): (r: seq<Category>)
    ensures |r| == |m|
    ensures StrictlyAscending(CategoryNames(r))
    ensures forall i :: 0 <= i < |r| ==> r[i].name in m && r[i].index == m[r[i].name].index
                                          && r[i].sounds == m[r[i].name].sounds
    ensures forall n :: n in m ==> Category(n, m[n].index, m[n].sounds) in r
  {
    SortedCategories(m);
    CategoriesAt(SortedKeys(m.Keys), m)
  }

  // ---------------------------------------------------------------------
  // `OrderBy(x => x.SoundName)` on a list: a stable sort by title.

  predicate SortedByName(s: seq<Sound>)
  {
    forall i, j :: 0 <= i < j < |s| ==> StrLe(s[i].name, s[j].name)
  }

  /** `x` placed before the first sound whose title is not below its own. */
  function InsertByName(x: Sound, s: seq<Sound>): (r: seq<Sound>)
    requires SortedByName(s)
    ensures multiset(r) == multiset(s) + multiset{x}
    ensures SortedByName(r)
  {
    if s == [] then [x]
    else if StrLe(x.name, s[0].name) then
      forall j | 0 <= j < |s| ensures StrLe(x.name, s[j].name) {
        if j > 0 { StrLeTransitive(x.name, s[0].name, s[j].name); }
      }
      [x] + s
    else
      var rest := InsertByName(x, s[1..]);
      StrLeTotal(x.name, s[0].name);
      forall y | y in multiset(rest) ensures StrLe(s[0].name, y.name) {
        assert y in multiset(s[1..]) + multiset{x};
        if y != x {
          var j :| 0 <= j < |s[1..]| && s[1..][j] == y;
          assert s[j + 1] == y;
        }
      }
      assert s == [s[0]] + s[1..];
      SortedAfterHead(s[0], rest);
      [s[0]] + rest
  }

  lemma SortedAfterHead(h: Sound, rest: seq<Sound>)
    requires SortedByName(rest)
    requires forall y :: y in multiset(rest) ==> StrLe(h.name, y.name)
    ensures SortedByName([h] + rest)
  {
    var r := [h] + rest;
    forall i, j | 0 <= i < j < |r| ensures StrLe(r[i].name, r[j].name) {
      if i == 0 {
        assert r[j] == rest[j - 1];
        assert rest[j - 1] in multiset(rest);
      }
    }
  }

  /** The titles of `s`, reordered ascending; among equal titles the earlier
      sound of `s` stays first. */
  function SortByName(s: seq<Sound>): (r: seq<Sound>)
    ensures multiset(r) == multiset(s)
    ensures SortedByName(r)
  {
    if s == [] then []
    else
      assert s == [s[0]] + s[1..];
      InsertByName(s[0], SortByName(s[1..]))
  }

  // ---------------------------------------------------------------------
  // `dic[key(e)] = val(e)` for each entry of a listing, in listing order.

  /** The dictionary a `foreach` over `es` fills: every key that occurs, with
      the value of its last occurrence. */
  function LastWins<E, V>(es: seq<E>, key: E -> string, val: E -> V): (m: map<string, V>)
    ensures forall i :: 0 <= i < |es| ==> key(es[i]) in m
    ensures forall k :: k in m ==> exists i :: 0 <= i < |es| && key(es[i]) == k
  {
    if es == [] then map[]
    else
      var init := LastWins(es[..|es| - 1], key, val);
      var m := init[key(es[|es| - 1]) := val(es[|es| - 1])];
      forall k | k in m ensures exists i :: 0 <= i < |es| && key(es[i]) == k {
        if k != key(es[|es| - 1]) {
          var i :| 0 <= i < |es| - 1 && key(es[..|es| - 1][i]) == k;
          assert key(es[i]) == k;
        }
      }
      m
  }

  /** A later entry with the same key overwrites an earlier one: the value
      kept for a key is that of its last occurrence. */
  lemma {:induction false} LastWinsKeepsLast<E, V>(es: seq<E>, key: E -> string, val: E -> V, j: nat)
    requires j < |es|
    requires forall i :: j < i < |es| ==> key(es[i]) != key(es[j])
    ensures LastWins(es, key, val)[key(es[j])] == val(es[j])
  {
    if j < |es| - 1 {
      var init := es[..|es| - 1];
      assert forall i :: j < i < |init| ==> key(init[i]) != key(init[j]);
      LastWinsKeepsLast(init, key, val, j);
    }
  }

  /** `Dictionary` filled entry by entry from a listing. */
  method FillDictionary<E, V>(es: seq<E>, key: E -> string, val: E -> V) returns (m: map<string, V>)
    ensures m == LastWins(es, key, val)
  {
    m := map[];
    var i := 0;
    while i < |es|
      invariant 0 <= i <= |es|
      invariant m == LastWins(es[..i], key, val)
    {
      assert es[..i + 1][..i] == es[..i];
      m := m[key(es[i]) := val(es[i])];
      i := i + 1;
    }
    assert es[..|es|] == es;
  }
}
