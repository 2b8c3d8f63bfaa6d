/** Go strings are byte sequences; here a `char` stands for one byte.

    Validity follows the table of well-formed byte sequences in section 4 of
    RFC 3629 (section 3 defines the encoding). A `char` above 0xFF is not a
    byte and so never occurs in a valid string.
  */
module Utf8 {

  predicate In(c: char, lo: int, hi: int) {
    lo <= c as int <= hi
  }

  predicate Tail(c: char) {
    In(c, 0x80, 0xBF)
  }

  /** utf8.RuneStart: a byte that is not a continuation byte. */
  predicate RuneStart(c: char) {
    !Tail(c)
  }

  /** Length of the well-formed rune at the front of `s`, or 0 if there is none. */
  function RuneLen(s: string): (n: nat)
    ensures n <= |s|
    ensures n > 0 ==> RuneStart(s[0]) && forall i :: 0 < i < n ==> Tail(s[i])
  {
    if |s| >= 1 && In(s[0], 0x00, 0x7F) then 1
    else if |s| >= 2 && In(s[0], 0xC2, 0xDF) && Tail(s[1]) then 2
    else if |s| >= 3 && Tail(s[2]) &&
            ((s[0] as int == 0xE0 && In(s[1], 0xA0, 0xBF)) ||
             (In(s[0], 0xE1, 0xEC) && Tail(s[1])) ||
             (s[0] as int == 0xED && In(s[1], 0x80, 0x9F)) ||
             (In(s[0], 0xEE, 0xEF) && Tail(s[1]))) then 3
    else if |s| >= 4 && Tail(s[2]) && Tail(s[3]) &&
            ((s[0] as int == 0xF0 && In(s[1], 0x90, 0xBF)) ||
             (In(s[0], 0xF1, 0xF3) && Tail(s[1])) ||
             (s[0] as int == 0xF4 && In(s[1], 0x80, 0x8F))) then 4
    else 0
  }

  /** utf8.ValidString */
  predicate Valid(s: string) {
    s == "" || (RuneLen(s) > 0 && Valid(s[RuneLen(s)..]))
  }

  /** A position at which a valid string may be cut. */
  predicate Boundary(s: string, i: nat)
    requires i <= |s|
  {
    i == |s| || RuneStart(s[i])
  }

  lemma RuneLenLocal(s: string, t: string)
    requires RuneLen(s) > 0
    ensures RuneLen(s + t) == RuneLen(s)
    ensures RuneLen(s[..RuneLen(s)]) == RuneLen(s)
  {
  }

  lemma Slices(s: string, n: nat, i: nat)
    requires n <= i <= |s|
    ensures s[..i][n..] == s[n..][..i - n] == s[n..i]
    ensures s[n..][i - n..] == s[i..]
  {
  }

  /** In a valid string the cut points that keep the front valid, those that
      keep the back valid, and the rune starts are the same positions. */
  lemma {:induction false} CutPoints(s: string, i: nat)
    requires Valid(s) && i <= |s|
    ensures Boundary(s, i) <==> Valid(s[..i])
    ensures Boundary(s, i) <==> Valid(s[i..])
  {
    if i == 0 {
      assert s[..i] == "" && s[i..] == s;
    } else {
      var n := RuneLen(s);
      if i < n {
        InsideRune(s, i);
      } else {
        hide RuneLen;
        Slices(s, n, i);
        CutPoints(s[n..], i - n);
        RuneLenLocal(s, "");
        RuneLenLocal(s[..n], s[..i][n..]);
        assert s[..n] + s[..i][n..] == s[..i];
      }
    }
  }

  /** Inside a rune neither side of a cut is valid. */
  lemma InsideRune(s: string, i: nat)
    requires 0 < i < RuneLen(s)
    ensures !Boundary(s, i) && !Valid(s[..i]) && !Valid(s[i..])
  {
    assert RuneLen(s[..i]) == 0;
    assert s[i..][0] == s[i];
  }

  lemma ValidStart(s: string)
    requires Valid(s) && s != ""
    ensures RuneLen(s) > 0 && Valid(s[RuneLen(s)..])
  {
  }

  /** An ASCII byte is a whole rune, so the position behind it is a cut point. */
  lemma AfterAscii(s: string, i: nat)
    requires Valid(s) && i < |s| && In(s[i], 0x00, 0x7F)
    ensures Boundary(s, i + 1)
  {
    CutPoints(s, i);
    assert s[i..][0] == s[i];
    assert RuneLen(s[i..]) == 1;
    assert s[i..][1..] == s[i + 1..];
    CutPoints(s, i + 1);
  }
}
