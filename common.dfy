/** Values and string helpers shared by the store and the controller models:
    an Option type for Python's None, decimal rendering as Python's str()
    does it for integers, ASCII lower-casing, substring search (`sub in s`)
    and `sep.join(parts)`. */
module Common {

  datatype Option<T> = None | Some(value: T)

  /** `m.get(k)`: the value stored under k, or None when there is none. */
  function Get<K, V>(m: map<K, V>, k: K): Option<V>
  {
    if k in m then Some(m[k]) else None
  }

  /** `m.get(k, d)`: the value stored under k, or d when there is none. */
  function GetOr<K, V>(m: map<K, V>, k: K, d: V): V
  {
    if k in m then m[k] else d
  }

  /** The character of one decimal digit. */
  function DigitChar(d: nat): (c: char)
    requires d < 10
    ensures '0' <= c <= '9'
  {
    (48 + d) as char
  }

  /** `str(n)` for a natural number: its decimal digits, most significant first. */
  function NatToString(n: nat): (s: string)
    ensures 1 <= |s|
    ensures forall k :: 0 <= k < |s| ==> '0' <= s[k] <= '9'
    ensures n < 10 <==> |s| == 1
    decreases n
  {
    if n < 10 then [DigitChar(n)] else NatToString(n / 10) + [DigitChar(n % 10)]
  }

  /** Two different numbers never render to the same digits. */
  lemma {:induction false} NatToStringInjective(a: nat, b: nat)
    requires NatToString(a) == NatToString(b)
    ensures a == b
    decreases a
  {
    if 10 <= a {
      var sa, sb := NatToString(a), NatToString(b);
      assert sa == NatToString(a / 10) + [DigitChar(a % 10)];
      assert sb == NatToString(b / 10) + [DigitChar(b % 10)];
      assert sa[..|sa| - 1] == NatToString(a / 10);
      assert sb[..|sb| - 1] == NatToString(b / 10);
      NatToStringInjective(a / 10, b / 10);
      assert sa[|sa| - 1] == sb[|sb| - 1];
    } else {
      assert NatToString(a)[0] == NatToString(b)[0];
    }
  }

  /** A wrapped piece can be recovered from `p + s + q` when `p` and `q` are known. */
  lemma WrappedInjective(p: string, s: string, t: string, q: string)
    requires p + s + q == p + t + q
    ensures s == t
  {
    var l, r := p + s + q, p + t + q;
    assert |s| == |t|;
    assert s == l[|p|..|p| + |s|];
    assert t == r[|p|..|p| + |t|];
  }

  /** `s.lower()` restricted to ASCII letters; every other character is kept. */
  function LowerAscii(s: string): (r: string)
    ensures |r| == |s|
    ensures forall k :: 0 <= k < |s| ==> r[k] == (if 'A' <= s[k] <= 'Z' then (s[k] as int + 32) as char else s[k])
  {
    seq(|s|, k requires 0 <= k < |s| => if 'A' <= s[k] <= 'Z' then (s[k] as int + 32) as char else s[k])
  }

  predicate IsPrefix(p: string, s: string)
  {
    |p| <= |s| && s[..|p|] == p
  }

  /** Python's `sub in s` on strings: `sub` occurs somewhere in `s`. */
  predicate Contains(s: string, sub: string)
    decreases |s|
  {
    IsPrefix(sub, s) || (|s| > 0 && Contains(s[1..], sub))
  }

  /** An occurrence stays an occurrence when text is added in front. */
  lemma {:induction false} ContainsAfterPrefix(a: string, s: string, sub: string)
    requires Contains(s, sub)
    ensures Contains(a + s, sub)
    decreases |a|
  {
    if |a| > 0 {
      assert (a + s)[1..] == a[1..] + s;
      ContainsAfterPrefix(a[1..], s, sub);
    } else {
      assert a + s == s;
    }
  }

  /** An occurrence stays an occurrence when text is added behind. */
  lemma {:induction false} ContainsBeforeSuffix(s: string, b: string, sub: string)
    requires Contains(s, sub)
    ensures Contains(s + b, sub)
    decreases |s|
  {
    if IsPrefix(sub, s) {
      assert (s + b)[..|sub|] == s[..|sub|];
    } else {
      assert (s + b)[1..] == s[1..] + b;
      ContainsBeforeSuffix(s[1..], b, sub);
    }
  }

  /** `sep.join(parts)`. */
  function Join(parts: seq<string>, sep: string): (r: string)
    decreases |parts|
  {
    if |parts| == 0 then ""
    else if |parts| == 1 then parts[0]
    else Join(parts[..|parts| - 1], sep) + sep + parts[|parts| - 1]
  }

  /** Text found in one of the parts is found in their join. */
  lemma {:induction false} JoinContainsPart(parts: seq<string>, sep: string, k: nat, sub: string)
    requires k < |parts| && Contains(parts[k], sub)
    ensures Contains(Join(parts, sep), sub)
    decreases |parts|
  {
    if |parts| > 1 {
      var init := parts[..|parts| - 1];
      if k == |parts| - 1 {
        ContainsAfterPrefix(Join(init, sep) + sep, parts[k], sub);
      } else {
        JoinContainsPart(init, sep, k, sub);
        ContainsBeforeSuffix(Join(init, sep), sep + parts[|parts| - 1], sub);
        assert Join(init, sep) + (sep + parts[|parts| - 1]) == Join(parts, sep);
      }
    }
  }
}
