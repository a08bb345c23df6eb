/**
 * Service names of in-thread extensions and devices: `extension_<n>_<id>`,
 * where `n` is the manager's shared worker counter.
 */
module ServiceNames {
  import opened JsValues

  const Prefix: string := "extension_"

  /** `` `extension_${n}_${id}` `` */
  function ServiceName(n: nat, id: string): (r: string)
    ensures |r| >= |Prefix| + 2
    ensures r[..|Prefix|] == Prefix
    ensures |r| == |Prefix| + |NatToString(n)| + 1 + |id|
    ensures forall i :: |Prefix| <= i < |Prefix| + |NatToString(n)| ==> '0' <= r[i] <= '9'
    ensures r[|Prefix|..|Prefix| + |NatToString(n)|] == NatToString(n)
    ensures r[|Prefix| + |NatToString(n)|] == '_'
    ensures r[|Prefix| + |NatToString(n)| + 1..] == id
  {
    Prefix + NatToString(n) + "_" + id
  }

  /** Index of the first `_` in `s` (|s| when there is none). */
  function UnderscoreIndex(s: string): (k: nat)
    ensures k <= |s|
  {
    if s == [] || s[0] == '_' then 0 else 1 + UnderscoreIndex(s[1..])
  }

  /** A run of digits followed by `_` puts the first `_` right after the digits. */
  lemma {:induction false} DigitsThenUnderscore(d: string, rest: string)
    requires forall i :: 0 <= i < |d| ==> '0' <= d[i] <= '9'
    ensures UnderscoreIndex(d + "_" + rest) == |d|
    decreases |d|
  {
    if d != [] {
      assert (d + "_" + rest)[1..] == d[1..] + "_" + rest;
      DigitsThenUnderscore(d[1..], rest);
    }
  }

  /** Two service names are equal only when their counters and ids are equal:
   *  a fresh counter value always gives a fresh service name, whatever the ids. */
  lemma ServiceNameInjective(a: nat, x: string, b: nat, y: string)
    ensures ServiceName(a, x) == ServiceName(b, y) ==> a == b && x == y
  {
    var s := ServiceName(a, x);
    if s == ServiceName(b, y) {
      var da, db := NatToString(a), NatToString(b);
      var p := |Prefix|;
      assert s[p..] == da + "_" + x;
      assert s[p..] == db + "_" + y;
      DigitsThenUnderscore(da, x);
      DigitsThenUnderscore(db, y);
      assert |da| == |db|;
      assert da == s[p..][..|da|];
      assert db == s[p..][..|db|];
      NatToStringInjective(a, b);
      assert x == s[p..][|da| + 1..];
      assert y == s[p..][|db| + 1..];
    }
  }
}
