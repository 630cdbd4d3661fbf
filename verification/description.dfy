/** Reading a workout description back into its type and calendar day. The parser
    exists to show that the description text carries exactly that information. */
module DescriptionText {
  import opened Wrappers
  import opened Decimal
  import opened Workouts

  predicate NoSpace(s: string) {
    forall j :: 0 <= j < |s| ==> s[j] != ' '
  }

  /** The position of the last space in `s`, if any. */
  function LastSpace(s: string): (r: Option<nat>)
    ensures r.None? <==> NoSpace(s)
    ensures r.Some? ==> r.value < |s| && s[r.value] == ' '
    ensures r.Some? ==> NoSpace(s[r.value + 1..])
  {
    if |s| == 0 then None
    else if s[|s| - 1] == ' ' then Some(|s| - 1)
    else
      var r := LastSpace(s[..|s| - 1]);
      assert r.Some? ==> s[r.value + 1..] == s[..|s| - 1][r.value + 1..] + [s[|s| - 1]];
      r
  }

  /** The text before and after the last space. */
  function SplitLast(s: string): Option<(string, string)> {
    match LastSpace(s)
    case None => None
    case Some(i) => Some((s[..i], s[i + 1..]))
  }

  lemma SplitLastOfJoin(a: string, b: string)
    requires NoSpace(b)
    ensures SplitLast(a + " " + b) == Some((a, b))
  {
    var s := a + " " + b;
    var r := LastSpace(s);
    assert s[|a|] == ' ';
    assert r.Some?;
    assert s[..|a|] == a;
    assert s[|a| + 1..] == b;
  }

  function KindOfLabel(text: string): Option<Kind> {
    if text == "Running" then Some(Running)
    else if text == "Cycling" then Some(Cycling)
    else None
  }

  function MonthOf(name: string): Option<Month> {
    if name == "January" then Some(0)
    else if name == "February" then Some(1)
    else if name == "March" then Some(2)
    else if name == "April" then Some(3)
    else if name == "May" then Some(4)
    else if name == "June" then Some(5)
    else if name == "July" then Some(6)
    else if name == "August" then Some(7)
    else if name == "September" then Some(8)
    else if name == "October" then Some(9)
    else if name == "November" then Some(10)
    else if name == "December" then Some(11)
    else None
  }

  /** "<Type> on <Month> <day>" back to the type and the date. */
  function ParseDescription(s: string): Option<(Kind, CalendarDate)> {
    var last := SplitLast(s);
    if last.None? then None else
    var middle := SplitLast(last.value.0);
    if middle.None? then None else
    var first := SplitLast(middle.value.0);
    if first.None? then None else
    ParseFields(first.value.0, first.value.1, middle.value.1, last.value.1)
  }

  function ParseFields(name: string, word: string, monthText: string, dayText: string): Option<(Kind, CalendarDate)> {
    var kind := KindOfLabel(name);
    var month := MonthOf(monthText);
    if word == "on" && kind.Some? && month.Some? && |dayText| > 0 && AllDigits(dayText) then
      var day := Parse(dayText);
      if 1 <= day <= 31 then Some((kind.value, CalendarDate(month.value, day))) else None
    else None
  }

  lemma MonthNameRoundTrip(m: Month)
    ensures NoSpace(MonthNames[m])
    ensures MonthOf(MonthNames[m]) == Some(m)
  {
  }

  lemma LabelRoundTrip(kind: Kind)
    ensures Capitalize(kind.Name()) == (if kind == Running then "Running" else "Cycling")
    ensures KindOfLabel(Capitalize(kind.Name())) == Some(kind)
  {
  }

  lemma DigitsHaveNoSpace(n: nat)
    ensures NoSpace(Digits(n))
  {
  }

  /** The description determines the type and the calendar day it was built from. */
  lemma DescriptionRoundTrip(kind: Kind, date: CalendarDate)
    ensures ParseDescription(Description(kind, date)) == Some((kind, date))
  {
    LabelRoundTrip(kind);
    MonthNameRoundTrip(date.month);
    DigitsHaveNoSpace(date.day);
    ParseDigits(date.day);
    ParseOfParts(Capitalize(kind.Name()), MonthNames[date.month], Digits(date.day), kind, date);
  }

  lemma ParseOfParts(name: string, month: string, dayText: string, kind: Kind, date: CalendarDate)
    requires KindOfLabel(name) == Some(kind)
    requires NoSpace(month) && MonthOf(month) == Some(date.month)
    requires NoSpace(dayText) && |dayText| > 0 && AllDigits(dayText) && Parse(dayText) == date.day
    ensures ParseDescription(name + " on " + month + " " + dayText) == Some((kind, date))
  {
    SplitOn(name);
    OnSpace(name, month);
    SplitLastOfJoin(name + " on", month);
    SplitLastOfJoin(name + " on " + month, dayText);
    FieldsOfParts(name, month, dayText, kind, date);
    ParseOfSplits(name, month, dayText, kind, date);
  }

  lemma OnSpace(name: string, month: string)
    ensures name + " on " + month == name + " on" + " " + month
  {
  }

  lemma SplitOn(name: string)
    ensures SplitLast(name + " on") == Some((name, "on"))
  {
    assert name + " on" == name + " " + "on";
    assert NoSpace("on");
    SplitLastOfJoin(name, "on");
  }

  lemma FieldsOfParts(name: string, month: string, dayText: string, kind: Kind, date: CalendarDate)
    requires KindOfLabel(name) == Some(kind)
    requires MonthOf(month) == Some(date.month)
    requires |dayText| > 0 && AllDigits(dayText) && Parse(dayText) == date.day
    ensures ParseFields(name, "on", month, dayText) == Some((kind, date))
  {
  }

  lemma ParseOfSplits(name: string, month: string, dayText: string, kind: Kind, date: CalendarDate)
    requires SplitLast(name + " on") == Some((name, "on"))
    requires SplitLast(name + " on " + month) == Some((name + " on", month))
    requires SplitLast(name + " on " + month + " " + dayText) == Some((name + " on " + month, dayText))
    requires ParseFields(name, "on", month, dayText) == Some((kind, date))
    ensures ParseDescription(name + " on " + month + " " + dayText) == Some((kind, date))
  {
  }

  /** Different types or calendar days never share a description. */
  lemma DescriptionInjective(k1: Kind, d1: CalendarDate, k2: Kind, d2: CalendarDate)
    requires Description(k1, d1) == Description(k2, d2)
    ensures k1 == k2 && d1 == d2
  {
    DescriptionRoundTrip(k1, d1);
    DescriptionRoundTrip(k2, d2);
  }

  /** Running in January on the 5th reads "Running on January 5"; cycling in
      December on the 31st reads "Cycling on December 31". */
  lemma DescriptionSamples()
    ensures Description(Running, CalendarDate(0, 5)) == "Running on January 5"
    ensures Description(Cycling, CalendarDate(11, 31)) == "Cycling on December 31"
  {
  }
}
