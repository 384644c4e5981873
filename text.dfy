/**
 * String helpers shared by the demo classes: the box-drawing padders
 * (`padRight`, `centerText`), `String.contains`, ASCII `toUpperCase`
 * and the "last four characters" mask.
 */
module Text {
  import opened Wrappers

  /** `" ".repeat(n)` */
  function Spaces(n: nat): (r: string)
    ensures |r| == n
    ensures forall i :: 0 <= i < n ==> r[i] == ' '
  {
    seq(n, _ => ' ')
  }

  /**
   * `padRight(text, width)`: cut the text to `width` characters, or fill it
   * with spaces up to `width`.
   */
  function PadRight(text: string, width: nat): (r: string)
    ensures |r| == width
    ensures |text| >= width ==> r == text[..width]
    ensures |text| < width ==> r[..|text|] == text
    ensures forall i :: |text| <= i < width ==> r[i] == ' '
  {
    if |text| >= width then text[..width] else text + Spaces(width - |text|)
  }

  /**
   * `centerText(text, width)`: left padding `(width - |text|) / 2`, the rest
   * on the right. A text longer than `width` makes `" ".repeat` throw in the
   * source, hence the precondition.
   */
  function CenterText(text: string, width: nat): (r: string)
    requires |text| <= width
    ensures |r| == width
    ensures r[(width - |text|) / 2 .. (width - |text|) / 2 + |text|] == text
    ensures forall i :: 0 <= i < (width - |text|) / 2 ==> r[i] == ' '
    ensures forall i :: (width - |text|) / 2 + |text| <= i < width ==> r[i] == ' '
    // the right margin is the left one or one more
    ensures var left := (width - |text|) / 2;
            var right := width - left - |text|;
            left <= right <= left + 1
  {
    var padding := (width - |text|) / 2;
    Spaces(padding) + text + Spaces(width - padding - |text|)
  }

  /** `t` occurs in `s` at position `i`. */
  predicate OccursAt(s: string, t: string, i: int)
  {
    0 <= i && i + |t| <= |s| && s[i..i + |t|] == t
  }

  /** `s.contains(t)`, scanning left to right. */
  function Contains(s: string, t: string): (b: bool)
    ensures b ==> |t| <= |s|
    ensures t <= s ==> b
    decreases |s|
  {
    if |t| <= |s| && s[..|t|] == t then true
    else if s == [] then false
    else Contains(s[1..], t)
  }

  /** The scan finds `t` exactly when `t` occurs somewhere in `s`. */
  lemma {:induction false} ContainsIff(s: string, t: string)
    ensures Contains(s, t) <==> exists i :: OccursAt(s, t, i)
    decreases |s|
  {
    if |t| <= |s| && s[..|t|] == t {
      assert OccursAt(s, t, 0);
    } else if s == [] {
    } else {
      ContainsIff(s[1..], t);
      forall i | OccursAt(s[1..], t, i) ensures OccursAt(s, t, i + 1) {
        assert s[i + 1..i + 1 + |t|] == s[1..][i..i + |t|];
      }
      forall i | OccursAt(s, t, i) ensures OccursAt(s[1..], t, i - 1) {
        assert s[1..][i - 1..i - 1 + |t|] == s[i..i + |t|];
      }
    }
  }

  /** A witness position makes `Contains` true. */
  lemma ContainsAt(s: string, t: string, i: int)
    requires OccursAt(s, t, i)
    ensures Contains(s, t)
  {
    ContainsIff(s, t);
  }

  /** Every string contains its own middle part. */
  lemma ContainsInfix(a: string, t: string, b: string)
    ensures Contains(a + t + b, t)
  {
    assert (a + t + b)[|a|..|a| + |t|] == t;
    ContainsAt(a + t + b, t, |a|);
  }

  /** `s.contains("c")` for a one-character needle is membership of `c`. */
  lemma ContainsChar(s: string, c: char)
    ensures Contains(s, [c]) <==> c in s
  {
    ContainsIff(s, [c]);
    if c in s {
      var i :| 0 <= i < |s| && s[i] == c;
      assert OccursAt(s, [c], i);
    }
    if Contains(s, [c]) {
      var i :| OccursAt(s, [c], i);
      assert s[i] == s[i..i + 1][0];
    }
  }

  /** An occurrence inside `s` is still one once `s` is surrounded by more text. */
  lemma ContainsWithin(a: string, s: string, b: string, t: string)
    requires Contains(s, t)
    ensures Contains(a + s + b, t)
  {
    ContainsIff(s, t);
    var i :| OccursAt(s, t, i);
    assert (a + s + b)[|a| + i..|a| + i + |t|] == s[i..i + |t|];
    ContainsAt(a + s + b, t, |a| + i);
  }

  /** ASCII `Character.toUpperCase`. */
  function UpperChar(c: char): (u: char)
    ensures 'a' <= c <= 'z' ==> 'A' <= u <= 'Z'
    ensures !('a' <= c <= 'z') ==> u == c
    ensures !('a' <= u <= 'z')
  {
    if 'a' <= c <= 'z' then (c as int - 32) as char else c
  }

  /** ASCII `String.toUpperCase`. */
  function ToUpper(s: string): (r: string)
    ensures |r| == |s|
    ensures forall i :: 0 <= i < |s| ==> r[i] == UpperChar(s[i])
  {
    seq(|s|, i requires 0 <= i < |s| => UpperChar(s[i]))
  }

  /** Upper-casing twice changes nothing more. */
  lemma ToUpperIdempotent(s: string)
    ensures ToUpper(ToUpper(s)) == ToUpper(s)
  {
  }

  /** Text without lower-case letters is its own upper case. */
  lemma ToUpperFixed(s: string)
    requires forall i :: 0 <= i < |s| ==> !('a' <= s[i] <= 'z')
    ensures ToUpper(s) == s
  {
  }

  /**
   * `s.substring(s.length() - 4)`: the last four characters, or `None` where
   * Java throws `StringIndexOutOfBoundsException` (fewer than four).
   */
  function LastFour(s: string): (r: Option<string>)
    ensures r.Some? <==> |s| >= 4
    ensures r.Some? ==> |r.value| == 4 && s == s[..|s| - 4] + r.value
  {
    if |s| >= 4 then Some(s[|s| - 4..]) else None
  }
}
