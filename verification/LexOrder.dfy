/** The order of JavaScript's `<` on strings, which `executeTransfer` uses to order wallet ids.
    (Dafny's own `<` on strings is the proper-prefix order.) */
module LexOrder {

  predicate Less(a: string, b: string) {
    if b == [] then false
    else if a == [] then true
    else if a[0] != b[0] then a[0] < b[0]
    else Less(a[1..], b[1..])
  }

  lemma {:induction false} LessIrreflexive(a: string)
    ensures !Less(a, a)
  {
    if a == [] {
    } else {
      LessIrreflexive(a[1..]);
    }
  }

  lemma {:induction false} LessTransitive(a: string, b: string, c: string)
    requires Less(a, b) && Less(b, c)
    ensures Less(a, c)
  {
    if a == [] {
    } else if a[0] == b[0] && b[0] == c[0] {
      LessTransitive(a[1..], b[1..], c[1..]);
    }
  }

  /** The first difference decides, and a proper prefix is smaller. */
  lemma {:induction false} LessIff(a: string, b: string)
    ensures Less(a, b) <==>
            exists k :: 0 <= k <= |a| && k < |b| && a[..k] == b[..k] && (k == |a| || a[k] < b[k])
  {
    if b == [] {
    } else if a == [] || a[0] != b[0] {
      assert a[..0] == b[..0];
      assert forall k :: 1 <= k <= |a| && k < |b| && a[..k] == b[..k] ==> a[..k][0] == b[..k][0];
    } else {
      LessIff(a[1..], b[1..]);
      assert forall k :: 0 <= k < |a| && k + 1 < |b| ==>
        a[..k + 1] == [a[0]] + a[1..][..k] && b[..k + 1] == [b[0]] + b[1..][..k];
      if k :| 0 <= k <= |a[1..]| && k < |b[1..]| && a[1..][..k] == b[1..][..k]
               && (k == |a[1..]| || a[1..][k] < b[1..][k]) {
        assert a[..k + 1] == b[..k + 1];
      }
      if k :| 0 <= k <= |a| && k < |b| && a[..k] == b[..k] && (k == |a| || a[k] < b[k]) {
        assert k >= 1;
        assert a[1..][..k - 1] == a[..k][1..] && b[1..][..k - 1] == b[..k][1..];
      }
    }
  }

  /** Exactly one of: smaller, equal, larger. */
  lemma {:induction false} LessTotal(a: string, b: string)
    ensures Less(a, b) || a == b || Less(b, a)
    ensures !(Less(a, b) && Less(b, a))
    ensures a == b ==> !Less(a, b)
  {
    if a == [] || b == [] {
    } else if a[0] == b[0] {
      LessTotal(a[1..], b[1..]);
      assert a == [a[0]] + a[1..] && b == [b[0]] + b[1..];
    }
  }

  /** A non-empty finite set of strings has a largest element. */
  lemma {:induction false} LargestExists(s: set<string>) returns (top: string)
    requires s != {}
    ensures top in s
    ensures forall x :: x in s && x != top ==> Less(x, top)
    decreases s
  {
    var y :| y in s;
    if s == {y} {
      top := y;
    } else {
      var t := LargestExists(s - {y});
      LessTotal(y, t);
      if Less(y, t) {
        top := t;
      } else {
        top := y;
        forall x | x in s && x != y
          ensures Less(x, y)
        {
          if x != t {
            LessTransitive(x, t, y);
          }
        }
      }
    }
  }
}
