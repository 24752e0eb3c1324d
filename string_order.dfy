/** The order IndexedDB puts string keys in: lexicographic, character by character,
    with a proper prefix before the longer string. */
module StringOrder {

  predicate Less(s: string, t: string)
    decreases |s|
  {
    if |s| == 0 then |t| > 0
    else if |t| == 0 then false
    else s[0] < t[0] || (s[0] == t[0] && Less(s[1..], t[1..]))
  }

  predicate LessEq(s: string, t: string)
  {
    s == t || Less(s, t)
  }

  lemma {:induction false} LessIrreflexive(s: string)
    ensures !Less(s, s)
    decreases |s|
  {
    if |s| > 0 {
      LessIrreflexive(s[1..]);
    }
  }

  lemma {:induction false} LessTransitive(s: string, t: string, u: string)
    requires Less(s, t) && Less(t, u)
    ensures Less(s, u)
    decreases |s|
  {
    if |s| > 0 && s[0] == t[0] && t[0] == u[0] {
      LessTransitive(s[1..], t[1..], u[1..]);
    }
  }

  lemma {:induction false} LessTotal(s: string, t: string)
    ensures s == t || Less(s, t) || Less(t, s)
    decreases |s|
  {
    if |s| > 0 && |t| > 0 && s[0] == t[0] {
      LessTotal(s[1..], t[1..]);
      if s[1..] == t[1..] {
        assert s == [s[0]] + s[1..] && t == [t[0]] + t[1..];
      }
    }
  }

  lemma LessEqTransitive(s: string, t: string, u: string)
    requires LessEq(s, t) && LessEq(t, u)
    ensures LessEq(s, u)
  {
    if s != t && t != u {
      LessTransitive(s, t, u);
    }
  }

  /** Every non-empty finite set of strings has a least element. */
  lemma {:induction false} MinimumExists(keys: set<string>)
    requires keys != {}
    ensures exists m :: m in keys && forall k :: k in keys ==> LessEq(m, k)
    decreases |keys|
  {
    var x :| x in keys;
    var rest := keys - {x};
    if rest == {} {
      assert keys == {x};
    } else {
      MinimumExists(rest);
      var m :| m in rest && forall k :: k in rest ==> LessEq(m, k);
      LessTotal(m, x);
      if Less(x, m) {
        forall k | k in keys ensures LessEq(x, k) {
          if k != x {
            LessEqTransitive(x, m, k);
          }
        }
      } else {
        assert forall k :: k in keys ==> LessEq(m, k);
      }
    }
  }
}
