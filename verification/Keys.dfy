/** The key order of an ordered map: lexicographic, each key once. */
module Keys {
  import opened Sums

  predicate Less(a: string, b: string) {
    |b| > 0 && (|a| == 0 || a[0] < b[0] || (a[0] == b[0] && Less(a[1..], b[1..])))
  }

  lemma {:induction false} LessTotal(a: string, b: string)
    ensures a == b || Less(a, b) || Less(b, a)
    ensures !(Less(a, b) && Less(b, a))
  {
    if |a| > 0 && |b| > 0 {
      LessTotal(a[1..], b[1..]);
      assert a == [a[0]] + a[1..] && b == [b[0]] + b[1..];
    }
  }

  lemma {:induction false} LessTransitive(a: string, b: string, c: string)
    requires Less(a, b) && Less(b, c)
    ensures Less(a, c)
  {
    if |a| > 0 && a[0] == b[0] == c[0] {
      LessTransitive(a[1..], b[1..], c[1..]);
    }
  }

  predicate IsFirst(k: string, s: set<string>) {
    k in s && forall j | j in s :: j == k || Less(k, j)
  }

  lemma {:induction false} FirstExists(s: set<string>) returns (k: string)
    requires s != {}
    ensures IsFirst(k, s)
  {
    k :| k in s;
    if s != {k} {
      var rest := s - {k};
      assert s == rest + {k};
      var j := FirstExists(rest);
      LessTotal(j, k);
      if Less(j, k) {
        k := j;
      } else {
        forall i | i in s ensures i == k || Less(k, i) {
          if i in rest && i != j { LessTransitive(k, j, i); }
        }
      }
    }
  }

  function First(s: set<string>): (k: string)
    requires s != {}
    ensures IsFirst(k, s)
  {
    ghost var least := FirstOf(s);
    assert forall a, b | IsFirst(a, s) && IsFirst(b, s) :: a == b by {
      forall a, b | IsFirst(a, s) && IsFirst(b, s) ensures a == b { LessTotal(a, b); }
    }
    var k :| k in s && IsFirst(k, s);
    k
  }

  ghost function FirstOf(s: set<string>): (k: string)
    requires s != {}
    ensures IsFirst(k, s)
  {
    assert exists k :: IsFirst(k, s) by { var k := FirstExists(s); }
    var k :| IsFirst(k, s);
    k
  }

  /** The keys in iteration order. */
  function Ordered(s: set<string>): (keys: seq<string>)
    ensures forall k :: k in keys <==> k in s
    ensures Distinct(keys)
    ensures forall i, j | 0 <= i < j < |keys| :: Less(keys[i], keys[j])
  {
    if s == {} then []
    else
      var k := First(s);
      [k] + Ordered(s - {k})
  }
}
