/** Reference strings built by the services: gateway tx_refs (`PREFIX-` followed by the
    upper-cased head of a random UUID's hex digits) and the Redis keys of pending intents.
    The random UUID is a parameter. */
module Refs {

  /** Python's `s[:n]`. */
  function Take(s: string, n: nat): (t: string)
    ensures |t| <= n && |t| <= |s|
    ensures t == s[..|t|]
    ensures |s| >= n ==> |t| == n
  {
    if |s| <= n then s else s[..n]
  }

  function UpperChar(c: char): (u: char)
    ensures 'a' <= c <= 'z' ==> 'A' <= u <= 'Z' && u as int == c as int - 32
    ensures !('a' <= c <= 'z') ==> u == c
  {
    if 'a' <= c <= 'z' then (c as int - 32) as char else c
  }

  /** `str.upper()` on ASCII text. */
  function Upper(s: string): (u: string)
    ensures |u| == |s|
    ensures forall i :: 0 <= i < |s| ==> u[i] == UpperChar(s[i])
  {
    seq(|s|, i requires 0 <= i < |s| => UpperChar(s[i]))
  }

  /** `f"{prefix}{uuid.uuid4().hex[:n].upper()}"`. */
  function GeneratedRef(prefix: string, hex: string, n: nat): (r: string)
    ensures |prefix| <= |r| <= |prefix| + n
    ensures r[..|prefix|] == prefix
  {
    prefix + Upper(Take(hex, n))
  }

  /** `f"pending_{vertical}_{tx_ref}"`, the key both the initiator and the payment handler use. */
  function PendingKey(vertical: string, txRef: string): string {
    "pending_" + vertical + "_" + txRef
  }

  predicate StartsWith(s: string, prefix: string) {
    |prefix| <= |s| && s[..|prefix|] == prefix
  }

  /** A 32-digit hex string gives a ref of exactly the prefix plus 32 characters, with no lower-case letter. */
  lemma GeneratedRefShape(prefix: string, hex: string, n: nat)
    requires |hex| >= n
    ensures |GeneratedRef(prefix, hex, n)| == |prefix| + n
    ensures StartsWith(GeneratedRef(prefix, hex, n), prefix)
    ensures forall i :: |prefix| <= i < |prefix| + n ==> !('a' <= GeneratedRef(prefix, hex, n)[i] <= 'z')
  {
    var r := GeneratedRef(prefix, hex, n);
    assert r == prefix + Upper(Take(hex, n));
    forall i | |prefix| <= i < |prefix| + n
      ensures !('a' <= r[i] <= 'z')
    {
      assert r[i] == Upper(Take(hex, n))[i - |prefix|];
    }
  }

  /** Keys of different verticals never collide when neither vertical name contains an underscore. */
  lemma PendingKeysOfVerticalsDiffer(v: string, w: string, t: string, u: string)
    requires v != w
    requires forall i :: 0 <= i < |v| ==> v[i] != '_'
    requires forall i :: 0 <= i < |w| ==> w[i] != '_'
    ensures PendingKey(v, t) != PendingKey(w, u)
  {
    var a, b := PendingKey(v, t), PendingKey(w, u);
    assert a == "pending_" + v + "_" + t;
    assert b == "pending_" + w + "_" + u;
    if |v| < |w| {
      assert a[8 + |v|] == '_' != w[|v|] == b[8 + |v|];
    } else if |w| < |v| {
      assert b[8 + |w|] == '_' != v[|w|] == a[8 + |w|];
    } else {
      var i :| 0 <= i < |v| && v[i] != w[i];
      assert a[8 + i] == v[i] != w[i] == b[8 + i];
    }
  }
}
