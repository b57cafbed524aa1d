/**
 * The validators of this system run a fixed list of checks one after the
 * other and append one message per failed check. This module states what
 * such an error list looks like: every message is one of the checks'
 * messages, each appears at most once, and they come in check order.
 */
module CheckOrder {

  /** Position of e in the check order, or |order| when e is none of its messages. */
  function Rank(order: seq<string>, e: string): (k: nat)
    ensures k <= |order|
    ensures k < |order| ==> order[k] == e
    ensures k == |order| <==> e !in order
  {
    if order == [] then 0
    else if order[0] == e then 0
    else 1 + Rank(order[1..], e)
  }

  /** errors holds messages of order only, in strictly increasing check position. */
  predicate InCheckOrder(errors: seq<string>, order: seq<string>) {
    (forall i :: 0 <= i < |errors| ==> errors[i] in order) &&
    (forall i, j :: 0 <= i < j < |errors| ==> Rank(order, errors[i]) < Rank(order, errors[j]))
  }

  /** Every message of errors belongs to a check before position k. */
  predicate RanksBelow(errors: seq<string>, order: seq<string>, k: nat) {
    forall i :: 0 <= i < |errors| ==> Rank(order, errors[i]) < k
  }

  /** What one check contributes: its message when it fails, nothing otherwise. */
  function IfFailed(failed: bool, message: string): seq<string> {
    if failed then [message] else []
  }

  /** Running a later check after the earlier ones keeps the list in check order. */
  lemma Then(errors: seq<string>, order: seq<string>, failed: bool, message: string)
    requires InCheckOrder(errors, order) && message in order
    requires RanksBelow(errors, order, Rank(order, message))
    ensures InCheckOrder(errors + IfFailed(failed, message), order)
    ensures RanksBelow(errors + IfFailed(failed, message), order, Rank(order, message) + 1)
  {
  }

  lemma {:induction false} RanksFrom(errors: seq<string>, order: seq<string>, lo: nat)
    requires InCheckOrder(errors, order)
    requires forall i :: 0 <= i < |errors| ==> lo <= Rank(order, errors[i])
    ensures lo + |errors| <= |order| || errors == []
  {
    if errors != [] {
      var r := Rank(order, errors[0]);
      var tail := errors[1..];
      assert forall i :: 0 <= i < |tail| ==> tail[i] == errors[i + 1];
      RanksFrom(tail, order, r + 1);
    }
  }

  /** An ordered error list repeats no message and is no longer than the list of checks. */
  lemma InCheckOrderBound(errors: seq<string>, order: seq<string>)
    requires InCheckOrder(errors, order)
    ensures |errors| <= |order|
    ensures forall i, j :: 0 <= i < j < |errors| ==> errors[i] != errors[j]
  {
    RanksFrom(errors, order, 0);
  }

  /**
   * Two ordered error lists with the same messages are equal: knowing which
   * checks failed determines the whole list.
   */
  lemma {:induction false} InCheckOrderUnique(a: seq<string>, b: seq<string>, order: seq<string>)
    requires InCheckOrder(a, order) && InCheckOrder(b, order)
    requires forall e :: e in a <==> e in b
    ensures a == b
  {
    if a != [] { assert a[0] in a; }
    if b != [] { assert b[0] in b; }
    if a != [] {
      assert a[0] == b[0] by {
        var k :| 0 <= k < |b| && b[k] == a[0];
        var m :| 0 <= m < |a| && a[m] == b[0];
        assert Rank(order, a[0]) <= Rank(order, a[m]);
        assert Rank(order, b[0]) <= Rank(order, b[k]);
      }
      var ta, tb := a[1..], b[1..];
      InCheckOrderBound(a, order);
      InCheckOrderBound(b, order);
      forall e
        ensures e in ta <==> e in tb
      {
        if e in ta {
          var i :| 0 <= i < |ta| && ta[i] == e;
          assert a[i + 1] == e;
          assert e in b && e != b[0];
        }
        if e in tb {
          var i :| 0 <= i < |tb| && tb[i] == e;
          assert b[i + 1] == e;
          assert e in a && e != a[0];
        }
      }
      InCheckOrderUnique(ta, tb, order);
    }
  }
}
