/** Types that the models of several parts of the system share. */
module Common {

  datatype Option<+T> = None | Some(value: T)

  datatype Checked<+T, +E> = Ok(value: T) | Refused(error: E)

  /** A SHA-256 digest, in text. */
  type Hash = string

  datatype Tool = Crm | Monitoring | Knowledge

  datatype ActionType = Read(tool: Tool) | NeedsInformation | NeedsOperator | ResponseCandidate

  // ---- Repetition in a sequence ---------------------------------------------------------

  predicate Distinct<T(==)>(s: seq<T>) {
    forall i, j :: 0 <= i < j < |s| ==> s[i] != s[j]
  }

  lemma {:induction false} DistinctSize<T>(s: seq<T>)
    requires Distinct(s)
    ensures |set x | x in s| == |s|
  {
    if s != [] {
      var n := |s| - 1;
      DistinctSize(s[..n]);
      assert (set x | x in s) == (set x | x in s[..n]) + {s[n]};
    }
  }

  /** As many members as places: no member is repeated. */
  lemma {:induction false} FullSetDistinct<T>(s: seq<T>)
    requires |set x | x in s| >= |s|
    ensures Distinct(s)
  {
    if s != [] {
      var n := |s| - 1;
      var front := set x | x in s[..n];
      assert (set x | x in s) == front + {s[n]};
      SetNoLarger(s[..n]);
      FullSetDistinct(s[..n]);
      assert s[n] !in front;
    }
  }

  lemma {:induction false} SetNoLarger<T>(s: seq<T>)
    ensures |set x | x in s| <= |s|
  {
    if s != [] {
      var n := |s| - 1;
      SetNoLarger(s[..n]);
      assert (set x | x in s) == (set x | x in s[..n]) + {s[n]};
    }
  }

  lemma {:induction false} DistinctOnce<T>(s: seq<T>, x: T)
    requires Distinct(s)
    ensures multiset(s)[x] == if x in s then 1 else 0
  {
    if s != [] {
      var n := |s| - 1;
      DistinctOnce(s[..n], x);
      assert s == s[..n] + [s[n]];
    }
  }

  lemma DistinctPermutation<T>(a: seq<T>, b: seq<T>)
    requires Distinct(a) && Distinct(b) && (set x | x in a) == (set x | x in b)
    ensures multiset(a) == multiset(b)
  {
    var members := set x | x in a;
    forall x: T
      ensures multiset(a)[x] == multiset(b)[x]
    {
      DistinctOnce(a, x);
      DistinctOnce(b, x);
      assert x in a <==> x in members;
      assert x in b <==> x in members;
    }
  }

  /** A set made of a sequence is as large as the sequence exactly when nothing repeats. */
  lemma SetSizeDecides<T>(s: seq<T>)
    ensures |set x | x in s| == |s| <==> Distinct(s)
  {
    if Distinct(s) {
      DistinctSize(s);
    } else if |set x | x in s| == |s| {
      FullSetDistinct(s);
    }
  }
}
