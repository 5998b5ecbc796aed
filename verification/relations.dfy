/**
 * How `Dependencies` records a relation (dhpython/depends.py).  `depends` is
 * a set; `recommends`, `suggests`, `enhances` and `breaks` are lists that
 * take a value only when it is non-empty and not yet present; `rtscripts`
 * is a list that only suppresses duplicates.  Sequences of values are
 * folded from the left, one `depend`/`recommend`/... call per value.
 */
module Relations {

  predicate NoDup<T(==)>(s: seq<T>)
  {
    forall i, j :: 0 <= i < j < |s| ==> s[i] != s[j]
  }

  // ---------------------------------------------------------------- one value

  /** `if value not in lst: lst.append(value)` */
  function AddNew<T(==, !new)>(s: seq<T>, v: T): (r: seq<T>)
    ensures forall x :: x in r <==> x in s || x == v
    ensures v in s ==> r == s
    ensures v !in s ==> r == s + [v]
  {
    if v in s then s else s + [v]
  }

  /** `if value and value not in lst: lst.append(value)` */
  function AddNonEmpty(s: seq<string>, v: string): (r: seq<string>)
    ensures forall x :: x in r <==> x in s || (x == v && v != "")
    ensures |s| <= |r| <= |s| + 1 && r[..|s|] == s
  {
    if v == "" then s else AddNew(s, v)
  }

  /** `if value and value not in st: st.add(value)` */
  function AddToSet(s: set<string>, v: string): (r: set<string>)
    ensures v != "" ==> r == s + {v}
    ensures v == "" ==> r == s
  {
    if v != "" && v !in s then s + {v} else s
  }

  lemma AddNewNoDup<T(!new)>(s: seq<T>, v: T)
    requires NoDup(s)
    ensures NoDup(AddNew(s, v))
  {
  }

  /** Adding the same value twice leaves exactly one copy. */
  lemma AddNewIdempotent<T(!new)>(s: seq<T>, v: T)
    ensures AddNew(AddNew(s, v), v) == AddNew(s, v)
  {
  }

  lemma AddNonEmptyIdempotent(s: seq<string>, v: string)
    ensures AddNonEmpty(AddNonEmpty(s, v), v) == AddNonEmpty(s, v)
  {
  }

  lemma AddToSetIdempotent(s: set<string>, v: string)
    ensures AddToSet(AddToSet(s, v), v) == AddToSet(s, v)
  {
  }

  // ---------------------------------------------------------------- many values

  /** The non-empty values among `vs`: what a run of `depend` calls adds to the set. */
  function NonEmpty(vs: seq<string>): (r: set<string>)
    ensures forall x :: x in r <==> x in vs && x != ""
  {
    set x | x in vs && x != ""
  }

  /** One `recommend` (or `suggest`, ...) call per value, in order. */
  function AddAll(s: seq<string>, vs: seq<string>): seq<string>
  {
    if vs == [] then s else AddNonEmpty(AddAll(s, vs[..|vs| - 1]), vs[|vs| - 1])
  }

  /** One `rtscript` call per value, in order. */
  function AddAllNew<T(==, !new)>(s: seq<T>, vs: seq<T>): seq<T>
  {
    if vs == [] then s else AddNew(AddAllNew(s, vs[..|vs| - 1]), vs[|vs| - 1])
  }

  /** The list keeps what it had, in front, and gains exactly the non-empty new values. */
  lemma {:induction false} AddAllContents(s: seq<string>, vs: seq<string>)
    ensures var r := AddAll(s, vs);
      |s| <= |r| && r[..|s|] == s && forall x :: x in r <==> x in s || (x in vs && x != "")
  {
    if vs != [] {
      var init := vs[..|vs| - 1];
      AddAllContents(s, init);
      var r0 := AddAll(s, init);
      assert r0[..|s|] == s;
      var r := AddAll(s, vs);
      assert r[..|r0|] == r0;
      assert r[..|s|] == r0[..|r0|][..|s|];
      assert vs == init + [vs[|vs| - 1]];
    }
  }

  /** A duplicate-free list without empty values stays so. */
  lemma {:induction false} AddAllNoDup(s: seq<string>, vs: seq<string>)
    requires NoDup(s) && "" !in s
    ensures NoDup(AddAll(s, vs)) && "" !in AddAll(s, vs)
  {
    if vs != [] {
      AddAllNoDup(s, vs[..|vs| - 1]);
      AddNewNoDup(AddAll(s, vs[..|vs| - 1]), vs[|vs| - 1]);
    }
  }

  /** Two runs of calls are one run over the concatenated values. */
  lemma {:induction false} AddAllAppend(s: seq<string>, a: seq<string>, b: seq<string>)
    ensures AddAll(AddAll(s, a), b) == AddAll(s, a + b)
  {
    if b != [] {
      assert (a + b)[..|a + b| - 1] == a + b[..|b| - 1];
      AddAllAppend(s, a, b[..|b| - 1]);
    } else {
      assert a + b == a;
    }
  }

  /** Repeating a run of calls changes nothing. */
  lemma {:induction false} AddAllIdempotent(s: seq<string>, vs: seq<string>)
    ensures AddAll(AddAll(s, vs), vs) == AddAll(s, vs)
  {
    AddAllContents(s, vs);
    AddAllAbsorbs(AddAll(s, vs), vs);
  }

  lemma {:induction false} AddAllAbsorbs(s: seq<string>, vs: seq<string>)
    requires forall x :: x in vs && x != "" ==> x in s
    ensures AddAll(s, vs) == s
  {
    if vs != [] {
      AddAllAbsorbs(s, vs[..|vs| - 1]);
    }
  }

  lemma {:induction false} AddAllNewContents<T(!new)>(s: seq<T>, vs: seq<T>)
    ensures var r := AddAllNew(s, vs);
      |s| <= |r| && r[..|s|] == s && forall x :: x in r <==> x in s || x in vs
  {
    if vs != [] {
      var init := vs[..|vs| - 1];
      AddAllNewContents(s, init);
      var r0 := AddAllNew(s, init);
      var r := AddAllNew(s, vs);
      assert r[..|r0|] == r0;
      assert r[..|s|] == r0[..|r0|][..|s|];
      assert vs == init + [vs[|vs| - 1]];
    }
  }

  lemma {:induction false} AddAllNewNoDup<T(!new)>(s: seq<T>, vs: seq<T>)
    requires NoDup(s)
    ensures NoDup(AddAllNew(s, vs))
  {
    if vs != [] {
      AddAllNewNoDup(s, vs[..|vs| - 1]);
      AddNewNoDup(AddAllNew(s, vs[..|vs| - 1]), vs[|vs| - 1]);
    }
  }

  lemma {:induction false} AddAllNewAppend<T(!new)>(s: seq<T>, a: seq<T>, b: seq<T>)
    ensures AddAllNew(AddAllNew(s, a), b) == AddAllNew(s, a + b)
  {
    if b != [] {
      assert (a + b)[..|a + b| - 1] == a + b[..|b| - 1];
      AddAllNewAppend(s, a, b[..|b| - 1]);
    } else {
      assert a + b == a;
    }
  }

  lemma NonEmptyAppend(a: seq<string>, b: seq<string>)
    ensures NonEmpty(a + b) == NonEmpty(a) + NonEmpty(b)
  {
  }
}
