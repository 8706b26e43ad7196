/** Month names and the "<Mon> <year>" labels used by the dashboard, both employee pages
    and the other-expenses month groups. */
module MonthLabels {
  import Numbers
  import Strings

  const MonthNames: seq<string> := ["Jan", "Feb", "Mar", "Apr", "May", "Jun", "Jul", "Aug", "Sep", "Oct", "Nov", "Dec"]

  /** `monthNames[month - 1] ?? String(month)`: the name for a calendar month and the
      number itself for any other value. */
  function MonthLabel(month: int): (r: string)
    ensures 1 <= month <= 12 ==> |r| == 3 && r == MonthNames[month - 1]
    ensures !(1 <= month <= 12) ==> r == Numbers.IntToString(month)
    ensures !(1 <= month <= 12) ==> Numbers.ToNumber(r) == Numbers.Int(month)
  {
    if 1 <= month <= 12 then MonthNames[month - 1]
    else
      Numbers.NumberOfString(month);
      Numbers.IntToString(month)
  }

  /** `${label} ${year}` as `formatMonthYear` builds it. */
  function FormatMonthYear(month: int, year: int): string {
    MonthLabel(month) + " " + Numbers.IntToString(year)
  }

  /** `${monNames[month - 1]} ${year}` as the month groups build it: there is no fallback,
      so a month outside 1..12 reads "undefined". */
  function GroupLabel(month: int, year: int): (r: string)
    ensures 1 <= month <= 12 ==> r == MonthNames[month - 1] + " " + Numbers.IntToString(year)
    ensures !(1 <= month <= 12) ==> r == "undefined " + Numbers.IntToString(year)
  {
    (if 1 <= month <= 12 then MonthNames[month - 1] else "undefined") + " " + Numbers.IntToString(year)
  }

  predicate NoSpace(s: string) {
    forall i :: 0 <= i < |s| ==> s[i] != ' '
  }

  lemma IntToStringInjective(a: int, b: int)
    requires Numbers.IntToString(a) == Numbers.IntToString(b)
    ensures a == b
  {
    Numbers.NumberOfString(a);
    Numbers.NumberOfString(b);
  }

  lemma IntToStringNoSpace(n: int)
    ensures NoSpace(Numbers.IntToString(n))
  {
  }

  /** Reads a month name back to its number (0 for anything else). */
  function MonthOfName(name: string): int {
    if name == "Jan" then 1 else if name == "Feb" then 2 else if name == "Mar" then 3
    else if name == "Apr" then 4 else if name == "May" then 5 else if name == "Jun" then 6
    else if name == "Jul" then 7 else if name == "Aug" then 8 else if name == "Sep" then 9
    else if name == "Oct" then 10 else if name == "Nov" then 11 else if name == "Dec" then 12
    else 0
  }

  /** The names read back to their months, and each starts with a capital letter. */
  lemma MonthNamesReadBack(m: int)
    requires 1 <= m <= 12
    ensures MonthOfName(MonthNames[m - 1]) == m
    ensures 'A' <= MonthNames[m - 1][0] <= 'Z'
    ensures NoSpace(MonthNames[m - 1])
  {
    if m == 1 {} else if m == 2 {} else if m == 3 {} else if m == 4 {}
    else if m == 5 {} else if m == 6 {} else if m == 7 {} else if m == 8 {}
    else if m == 9 {} else if m == 10 {} else if m == 11 {} else {}
  }

  /** Distinct months get distinct labels: no name is a number, and numbers print distinctly. */
  lemma MonthLabelInjective(a: int, b: int)
    requires MonthLabel(a) == MonthLabel(b)
    ensures a == b
  {
    if 1 <= a <= 12 && 1 <= b <= 12 {
      MonthNamesReadBack(a);
      MonthNamesReadBack(b);
    } else if 1 <= a <= 12 {
      MonthNamesReadBack(a);
      Numbers.IntToStringShape(b);
      assert false;
    } else if 1 <= b <= 12 {
      MonthNamesReadBack(b);
      Numbers.IntToStringShape(a);
      assert false;
    } else {
      IntToStringInjective(a, b);
    }
  }

  /** Two labels joined by one space split back uniquely when neither part has a space. */
  lemma SplitAtSpace(a: string, b: string, c: string, d: string)
    requires NoSpace(a) && NoSpace(b) && NoSpace(c) && NoSpace(d)
    requires a + " " + b == c + " " + d
    ensures a == c && b == d
  {
    var s := a + " " + b;
    assert forall i :: 0 <= i < |a| ==> s[i] != ' ';
    assert s[|a|] == ' ';
    assert forall i :: 0 <= i < |c| ==> s[i] != ' ';
    assert s[|c|] == ' ';
    assert |a| == |c|;
    assert a == s[..|a|] == c;
    assert b == s[|a| + 1..] == d;
  }

  /** "<Mon> <year>" tells periods apart: different (month, year) pairs never share a label. */
  lemma FormatMonthYearInjective(m1: int, y1: int, m2: int, y2: int)
    requires FormatMonthYear(m1, y1) == FormatMonthYear(m2, y2)
    ensures m1 == m2 && y1 == y2
  {
    var l1, l2 := MonthLabel(m1), MonthLabel(m2);
    assert NoSpace(l1) by { if 1 <= m1 <= 12 { MonthNamesReadBack(m1); } else { IntToStringNoSpace(m1); } }
    assert NoSpace(l2) by { if 1 <= m2 <= 12 { MonthNamesReadBack(m2); } else { IntToStringNoSpace(m2); } }
    IntToStringNoSpace(y1);
    IntToStringNoSpace(y2);
    SplitAtSpace(l1, Numbers.IntToString(y1), l2, Numbers.IntToString(y2));
    MonthLabelInjective(m1, m2);
    IntToStringInjective(y1, y2);
  }

  /** The label reads back: the text before its one space is the month name (or, outside
      1..12, the month number) and the text after it is the year. */
  lemma FormatMonthYearReadBack(month: int, year: int)
    ensures |MonthLabel(month)| < |FormatMonthYear(month, year)|
    ensures FormatMonthYear(month, year)[|MonthLabel(month)|] == ' '
    ensures Numbers.ToNumber(FormatMonthYear(month, year)[|MonthLabel(month)| + 1..]) == Numbers.Int(year)
    ensures 1 <= month <= 12 ==> FormatMonthYear(month, year)[..3] == MonthNames[month - 1]
    ensures !(1 <= month <= 12) ==>
      Numbers.ToNumber(FormatMonthYear(month, year)[..|MonthLabel(month)|]) == Numbers.Int(month)
  {
    var l, y := MonthLabel(month), Numbers.IntToString(year);
    var r := l + " " + y;
    assert r[..|l|] == l;
    assert r[|l| + 1..] == y;
    Numbers.NumberOfString(year);
  }

  /** The month groups' title is the "<Mon> <year>" label for a calendar month, and
      differs from it for any other month, where it reads "undefined <year>". */
  lemma GroupLabelAgainstFormat(month: int, year: int)
    ensures 1 <= month <= 12 ==> GroupLabel(month, year) == FormatMonthYear(month, year)
    ensures !(1 <= month <= 12) ==> GroupLabel(month, year) != FormatMonthYear(month, year)
  {
    if !(1 <= month <= 12) {
      Numbers.IntToStringShape(month);
      assert GroupLabel(month, year)[0] == 'u';
      assert FormatMonthYear(month, year)[0] == Numbers.IntToString(month)[0];
    }
  }
}
