/** Lists of numbers without repetition, as the kernel's linked lists of processes, timers, messages and blocks are. */
module Lists {
  ghost predicate NoDup(s: seq<nat>) {
    forall i, j :: 0 <= i < j < |s| ==> s[i] != s[j]
  }

  /** The list without a process that is on it at most once. */
  function Without(s: seq<nat>, p: nat): seq<nat> {
    if s == [] then [] else if s[0] == p then s[1..] else [s[0]] + Without(s[1..], p)
  }

  lemma {:induction false} WithoutOk(s: seq<nat>, p: nat)
    requires NoDup(s)
    ensures NoDup(Without(s, p))
    ensures forall q :: q in Without(s, p) <==> q in s && q != p
    ensures |Without(s, p)| == |s| - if p in s then 1 else 0
  {
    if s != [] {
      WithoutOk(s[1..], p);
      assert s == [s[0]] + s[1..];
      if s[0] != p {
        forall i, j | 0 <= i < j < |Without(s, p)| ensures Without(s, p)[i] != Without(s, p)[j] {
          assert i == 0 ==> Without(s, p)[j] in s[1..];
        }
      }
    }
  }

  lemma TailOk(s: seq<nat>, p: nat)
    requires NoDup(s) && p !in s
    ensures NoDup(s + [p]) && forall q :: q in s + [p] <==> q in s || q == p
  {
  }

  lemma HeadOk(s: seq<nat>)
    requires NoDup(s) && s != []
    ensures NoDup(s[1..]) && s[0] !in s[1..]
    ensures forall q :: q in s[1..] <==> q in s && q != s[0]
  {
    assert s == [s[0]] + s[1..];
  }

  lemma {:induction false} Once(s: seq<nat>, p: nat)
    requires NoDup(s)
    ensures multiset(s)[p] == if p in s then 1 else 0
  {
    if s != [] {
      assert s == [s[0]] + s[1..];
      HeadOk(s);
      Once(s[1..], p);
    }
  }

  lemma WithoutHead(s: seq<nat>)
    requires s != []
    ensures Without(s, s[0]) == s[1..]
  {
  }

  lemma {:induction false} WithoutAbsent(s: seq<nat>, n: nat)
    requires n !in s
    ensures Without(s, n) == s
  {
    if s != [] {
      WithoutAbsent(s[1..], n);
    }
  }

  lemma NoDupEmpty()
    ensures NoDup([])
  {
  }

  lemma Alone(s: seq<nat>, i: nat)
    requires NoDup(s) && i < |s|
    ensures s[i] !in s[..i] && s[i] !in s[i + 1..]
  {
  }

  lemma AllSame(s: seq<nat>)
    requires NoDup(s) && forall i :: 0 <= i < |s| ==> s[i] == s[0]
    ensures |s| <= 1
  {
    if |s| > 1 {
      TwoDiffer(s);
    }
  }

  lemma TwoDiffer(s: seq<nat>)
    requires NoDup(s) && |s| > 1
    ensures s[0] != s[1]
  {
  }

  function Members(s: seq<nat>): set<nat> {
    set n | n in s
  }

  /** Those of a list that are in `keep`, in order. */
  ghost function Sift(s: seq<nat>, keep: set<nat>): seq<nat> {
    if s == [] then [] else Sift(s[..|s| - 1], keep) + if s[|s| - 1] in keep then [s[|s| - 1]] else []
  }

  lemma SiftNext(s: seq<nat>, x: nat, keep: set<nat>)
    ensures Sift(s + [x], keep) == Sift(s, keep) + if x in keep then [x] else []
  {
    assert (s + [x])[..|s|] == s;
  }

  lemma {:induction false} SiftIn(s: seq<nat>, keep: set<nat>)
    ensures forall n :: n in Sift(s, keep) <==> n in s && n in keep
    ensures NoDup(s) ==> NoDup(Sift(s, keep))
  {
    if s != [] {
      var short, x := s[..|s| - 1], s[|s| - 1];
      SiftIn(short, keep);
      assert s == short + [x];
      assert NoDup(s) ==> x !in short;
      if NoDup(s) && x in keep { TailOk(Sift(short, keep), x); }
    }
  }

  lemma {:induction false} SiftTwice(s: seq<nat>, a: set<nat>, b: set<nat>)
    ensures Sift(Sift(s, a), b) == Sift(s, a * b)
  {
    if s != [] {
      var short, x := s[..|s| - 1], s[|s| - 1];
      SiftTwice(short, a, b);
      assert s == short + [x];
      if x in a {
        SiftNext(Sift(short, a), x, b);
      } else {
        assert Sift(s, a) == Sift(short, a);
      }
    }
  }

  lemma {:induction false} SiftSame(s: seq<nat>, a: set<nat>, b: set<nat>)
    requires forall n :: n in s ==> (n in a <==> n in b)
    ensures Sift(s, a) == Sift(s, b)
  {
    if s != [] {
      assert s == s[..|s| - 1] + [s[|s| - 1]];
      SiftSame(s[..|s| - 1], a, b);
    }
  }

  lemma {:induction false} SiftAll(s: seq<nat>, keep: set<nat>)
    requires Members(s) <= keep
    ensures Sift(s, keep) == s
  {
    if s != [] {
      assert s == s[..|s| - 1] + [s[|s| - 1]];
      assert Members(s[..|s| - 1]) <= Members(s) && s[|s| - 1] in Members(s);
      SiftAll(s[..|s| - 1], keep);
    }
  }

  lemma {:induction false} WithoutNext(s: seq<nat>, x: nat, p: nat)
    requires NoDup(s + [x])
    ensures Without(s + [x], p) == if x == p then s else Without(s, p) + [x]
  {
    if s == [] {
      assert Without([x], p) == if x == p then [] else [x];
    } else {
      assert (s + [x])[1..] == s[1..] + [x];
      HeadOk(s + [x]);
      assert s[1..] + [x] == (s + [x])[1..];
      WithoutNext(s[1..], x, p);
      assert s[0] == p ==> x != p;
      assert s == [s[0]] + s[1..];
    }
  }

  lemma {:induction false} WithoutSift(s: seq<nat>, p: nat, keep: set<nat>)
    requires NoDup(s) && Members(s) - {p} <= keep && p !in keep
    ensures Without(s, p) == Sift(s, keep)
  {
    if s != [] {
      var short, x := s[..|s| - 1], s[|s| - 1];
      assert s == short + [x];
      assert Members(short) <= Members(s) && x in Members(s);
      WithoutNext(short, x, p);
      if x == p {
        Alone(s, |s| - 1);
        assert p !in short;
        SiftAll(short, keep);
      } else {
        WithoutSift(short, p, keep);
      }
    }
  }
}
