/** Trimming of white space, as ECMAScript defines it. */
module Text {

  /** The white space that ECMAScript `trim` removes. */
  predicate IsSpace(c: char) {
    '\t' <= c <= '\r' || c == ' ' || c == '\U{00A0}' || c == '\U{1680}' || '\U{2000}' <= c <= '\U{200A}' ||
    c == '\U{2028}' || c == '\U{2029}' || c == '\U{202F}' || c == '\U{205F}' || c == '\U{3000}' || c == '\U{FEFF}'
  }

  function TrimStart(s: string): string {
    if s != "" && IsSpace(s[0]) then TrimStart(s[1..]) else s
  }

  function TrimEnd(s: string): string {
    if s != "" && IsSpace(s[|s| - 1]) then TrimEnd(s[..|s| - 1]) else s
  }

  function Trim(s: string): string {
    TrimEnd(TrimStart(s))
  }

  /** Nothing but white space: what trims to nothing. */
  predicate IsBlank(s: string) {
    forall i :: 0 <= i < |s| ==> IsSpace(s[i])
  }

  /** Trimming removes white space, and only white space, from both ends; a text trims to nothing exactly
    * when it is all white space. */
  lemma {:induction false} TrimLeavesNoOuterSpace(s: string)
    ensures var t := Trim(s);
            (t != "" ==> !IsSpace(t[0]) && !IsSpace(t[|t| - 1])) &&
            exists before, after :: s == before + t + after &&
              (forall c <- before :: IsSpace(c)) && (forall c <- after :: IsSpace(c))
    ensures Trim(s) == "" <==> IsBlank(s)
  {
    var before := TrimStartCut(s);
    var after := TrimEndCut(TrimStart(s));
    assert s == before + Trim(s) + after;
    if Trim(s) != "" {
      assert s[|before|] == Trim(s)[0];
    }
  }

  lemma {:induction false} TrimStartCut(s: string) returns (cut: string)
    ensures s == cut + TrimStart(s) && forall c <- cut :: IsSpace(c)
    ensures TrimStart(s) != "" ==> !IsSpace(TrimStart(s)[0])
  {
    cut := "";
    if s != "" && IsSpace(s[0]) {
      var more := TrimStartCut(s[1..]);
      cut := [s[0]] + more;
      assert s == [s[0]] + s[1..];
    }
  }

  lemma {:induction false} TrimEndCut(s: string) returns (cut: string)
    ensures s == TrimEnd(s) + cut && forall c <- cut :: IsSpace(c)
    ensures TrimEnd(s) != "" ==> !IsSpace(TrimEnd(s)[|TrimEnd(s)| - 1]) && TrimEnd(s)[0] == s[0]
  {
    cut := "";
    if s != "" && IsSpace(s[|s| - 1]) {
      var more := TrimEndCut(s[..|s| - 1]);
      cut := more + [s[|s| - 1]];
      assert s == s[..|s| - 1] + [s[|s| - 1]];
    }
  }

  /** Where two texts agree, the one cut earlier at a separator has a separator inside the other's left
    * part; texts cut at the same place have the same parts. */
  lemma FirstSeparator(left: string, right: string, otherLeft: string, otherRight: string, separator: char)
    requires left + [separator] + right == otherLeft + [separator] + otherRight
    ensures |left| < |otherLeft| ==> separator in otherLeft
    ensures |left| == |otherLeft| ==> left == otherLeft && right == otherRight
  {
    var text, otherText := left + [separator] + right, otherLeft + [separator] + otherRight;
    assert text[|left|] == separator;
    if |left| < |otherLeft| {
      assert otherLeft[|left|] == otherText[|left|];
    } else if |left| == |otherLeft| {
      assert text[..|left|] == left && otherText[..|left|] == otherLeft;
      assert text[|left| + 1..] == right && otherText[|left| + 1..] == otherRight;
    }
  }

  /** A separator that neither left part holds cuts both texts at the same place. */
  lemma SameCut(left: string, right: string, otherLeft: string, otherRight: string, separator: char)
    requires left + [separator] + right == otherLeft + [separator] + otherRight
    requires separator !in left && separator !in otherLeft
    ensures left == otherLeft && right == otherRight
  {
    FirstSeparator(left, right, otherLeft, otherRight, separator);
    FirstSeparator(otherLeft, otherRight, left, right, separator);
  }

  /** A number in decimal digits. */
  function Decimal(n: nat): string {
    (if n < 10 then "" else Decimal(n / 10)) + [('0' as int + n % 10) as char]
  }

  lemma {:induction false} DecimalDigits(n: nat)
    ensures Decimal(n) != "" && forall c <- Decimal(n) :: '0' <= c <= '9'
  {
    if n >= 10 {
      DecimalDigits(n / 10);
    }
  }

  lemma {:induction false} DecimalIsInjective(n: nat, m: nat)
    requires Decimal(n) == Decimal(m)
    ensures n == m
  {
    DecimalDigits(n / 10);
    DecimalDigits(m / 10);
    var a, b := Decimal(n), Decimal(m);
    assert a[|a| - 1] as int - '0' as int == n % 10 && b[|b| - 1] as int - '0' as int == m % 10;
    if n >= 10 && m >= 10 {
      assert a[..|a| - 1] == Decimal(n / 10) && b[..|b| - 1] == Decimal(m / 10);
      DecimalIsInjective(n / 10, m / 10);
    }
  }
}
