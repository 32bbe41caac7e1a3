/** Combining CI summaries into one comment of bounded length. */
module CommentBudget {
  import opened Basics

  // A summary is shown whole while that leaves 300 characters for every summary still to come
  // and 2000 for the end, and as its heading with a note otherwise.  The note and up to 1000
  // characters of heading can be more than the 300, so the total can exceed the limit; what
  // follows says when it cannot.

  const LIMIT := 60_000
  const Heading := "\n## Test results\n"
  const Unavailable := "Test evidence unavailable; inspect workflow job results. No test success is inferred.\n"
  const Omitted := "\nDetailed timing omitted from this bounded comment; use workflow artifacts.\n"
  const Footer := "\nThis comment is updated in place for each CI run.\n"
  const Marker := "<details>"

  // ----- text -----------------------------------------------------------------------------------

  predicate StartsWith(s: string, prefix: string) {
    |s| >= |prefix| && s[..|prefix|] == prefix
  }

  /** `s.split("<details>", 1)[0]`. */
  function BeforeDetails(s: string): (heading: string)
    ensures |heading| <= |s|
  {
    if s == "" || StartsWith(s, Marker) then "" else [s[0]] + BeforeDetails(s[1..])
  }

  /** The heading is what stands before the first marker. */
  lemma {:induction false} HeadingEndsAtFirstMarker(s: string)
    ensures var h := |BeforeDetails(s)|;
            && BeforeDetails(s) == s[..h]
            && (h == |s| || "<details>" <= s[h..])
            && forall i :: 0 <= i < h ==> !("<details>" <= s[i..])
  {
    var h := |BeforeDetails(s)|;
    if s != "" && !StartsWith(s, Marker) {
      HeadTail(s);
      HeadingEndsAtFirstMarker(s[1..]);
      assert s[1..][h - 1..] == s[h..];
      forall i | 0 <= i < h ensures !StartsWith(s[i..], Marker) {
        if i > 0 { assert s[1..][i - 1..] == s[i..]; } else { assert s[0..] == s; }
      }
    }
  }

  function Take(s: string, n: nat): string {
    if |s| <= n then s else s[..n]
  }

  function Total(parts: seq<string>): nat {
    if parts == [] then 0 else |parts[0]| + Total(parts[1..])
  }

  lemma {:induction false} TotalOfConcat(a: seq<string>, b: seq<string>)
    ensures Total(a + b) == Total(a) + Total(b)
  {
    if a == [] {
      assert a + b == b;
    } else {
      TotalOfConcat(a[1..], b);
      assert (a + b)[1..] == a[1..] + b;
    }
  }

  /** `"\n".join(parts)`. */
  function JoinLines(parts: seq<string>): string {
    if parts == [] then "" else if |parts| == 1 then parts[0] else parts[0] + "\n" + JoinLines(parts[1..])
  }

  lemma {:induction false} JoinedLength(parts: seq<string>)
    requires parts != []
    ensures |JoinLines(parts)| == Total(parts) + |parts| - 1
  {
    if |parts| > 1 { JoinedLength(parts[1..]); }
  }

  // ----- combine -------------------------------------------------------------------------------------

  /** The terse form of a summary. */
  function Brief(summary: string): string {
    Take(BeforeDetails(summary), 1000) + Omitted
  }

  /** What stands for the first of `left` summaries after `total` characters. */
  function Choice(total: nat, left: nat, summary: string): string {
    if |summary| <= LIMIT - total - 2_000 - 300 * left then summary else Brief(summary)
  }

  function Chosen(total: nat, summaries: seq<string>): (r: seq<string>)
    ensures |r| == |summaries|
    decreases |summaries|
  {
    if summaries == [] then []
    else
      var first := Choice(total, |summaries|, summaries[0]);
      [first] + Chosen(total + |first|, summaries[1..])
  }

  function Initial(workflow: string, duration: Option<string>): seq<string> {
    [workflow] + (if duration.Some? then [duration.value] else []) + [Heading]
  }

  function AllParts(workflow: string, duration: Option<string>, summaries: seq<string>): seq<string> {
    var initial := Initial(workflow, duration) + if summaries == [] then [Unavailable] else [];
    initial + Chosen(Total(initial), summaries) + [Footer]
  }

  lemma {:induction false} ChosenStep(parts: seq<string>, summaries: seq<string>, index: nat)
    requires index < |summaries|
    ensures var first := Choice(Total(parts), |summaries| - index, summaries[index]);
            parts + Chosen(Total(parts), summaries[index..]) ==
            (parts + [first]) + Chosen(Total(parts + [first]), summaries[index + 1..])
  {
    var first := Choice(Total(parts), |summaries| - index, summaries[index]);
    ChosenHead(Total(parts), summaries, index);
    TotalOfConcat(parts, [first]);
    assert Total([first]) == |first|;
    Assoc(parts, [first], Chosen(Total(parts) + |first|, summaries[index + 1..]));
  }

  lemma {:induction false} ChosenHead(total: nat, summaries: seq<string>, index: nat)
    requires index < |summaries|
    ensures var first := Choice(total, |summaries| - index, summaries[index]);
            Chosen(total, summaries[index..]) == [first] + Chosen(total + |first|, summaries[index + 1..])
  {
    assert summaries[index..][0] == summaries[index] && summaries[index..][1..] == summaries[index + 1..];
  }

  datatype Error = ReportTooLong

  method Combine(workflow: string, duration: Option<string>, summaries: seq<string>) returns (r: Result<string, Error>)
    ensures var output := JoinLines(AllParts(workflow, duration, summaries));
            r == if |output| <= LIMIT then Ok(output) else Err(ReportTooLong)
  {
    var parts := [workflow];
    if duration.Some? {
      parts := parts + [duration.value];
    }
    parts := parts + [Heading];
    if summaries == [] {
      parts := parts + [Unavailable];
    }
    ghost var initial := parts;
    assert initial == Initial(workflow, duration) + if summaries == [] then [Unavailable] else [];
    var index := 0;
    while index < |summaries|
      invariant 0 <= index <= |summaries|
      invariant initial + Chosen(Total(initial), summaries) == parts + Chosen(Total(parts), summaries[index..])
    {
      var summary := summaries[index];
      ChosenStep(parts, summaries, index);
      var remaining := LIMIT - Total(parts) - 2_000 - 300 * (|summaries| - index);
      if |summary| <= remaining {
        parts := parts + [summary];
      } else {
        parts := parts + [Take(BeforeDetails(summary), 1000) + Omitted];
      }
      index := index + 1;
    }
    assert parts + Chosen(Total(parts), []) == parts;
    parts := parts + [Footer];
    var output := JoinLines(parts);
    if |output| > LIMIT {
      return Err(ReportTooLong);
    }
    r := Ok(output);
  }

  /** One line break between two parts, and the parts in their order. */
  lemma {:induction false} JoinMeans(a: seq<string>, b: seq<string>)
    requires a != [] && b != []
    ensures JoinLines(a + b) == JoinLines(a) + "\n" + JoinLines(b)
    ensures |a| == 1 ==> JoinLines(a) == a[0]
    decreases |a|
  {
    if |a| == 1 {
      assert (a + b)[1..] == b && (a + b)[0] == a[0];
    } else {
      assert (a + b)[1..] == a[1..] + b && (a + b)[0] == a[0];
      JoinMeans(a[1..], b);
      Assoc(a[0] + "\n", JoinLines(a[1..]) + "\n", JoinLines(b));
      Assoc(a[0] + "\n", JoinLines(a[1..]), "\n");
    }
  }

  /** The terse form: the first 1000 characters of the heading, and the note. */
  lemma {:induction false} BriefMeans(summary: string)
    ensures var heading := BeforeDetails(summary);
            Brief(summary) ==
            (if |heading| <= 1_000 then heading else heading[..1_000])
            + "\nDetailed timing omitted from this bounded comment; use workflow artifacts.\n"
  {
  }

  /** The parts in their order. */
  lemma {:induction false} PartsMean(workflow: string, duration: Option<string>, summaries: seq<string>)
    ensures var top := match duration
                       case None => [workflow, "\n## Test results\n"]
                       case Some(d) => [workflow, d, "\n## Test results\n"];
            var footer := "\nThis comment is updated in place for each CI run.\n";
            AllParts(workflow, duration, summaries) ==
            if summaries == [] then
              top + ["Test evidence unavailable; inspect workflow job results. No test success is inferred.\n", footer]
            else top + Chosen(Total(top), summaries) + [footer]
  {
    var top := match duration
               case None => [workflow, "\n## Test results\n"]
               case Some(d) => [workflow, d, "\n## Test results\n"];
    assert Initial(workflow, duration) == top && top + [] == top;
  }

  /** Each summary is shown whole exactly when, after everything before it, it leaves 300
      characters for every summary not yet shown, itself included, and 2000 for the end. */
  lemma {:induction false} ChosenMeans(total: nat, summaries: seq<string>, i: nat)
    requires i < |summaries|
    ensures var shown := Chosen(total, summaries);
            shown[i] == if total + Total(shown[..i]) + |summaries[i]| + 300 * (|summaries| - i) + 2_000 <= 60_000
                        then summaries[i] else Brief(summaries[i])
    decreases i
  {
    var shown := Chosen(total, summaries);
    if i > 0 {
      var first := Choice(total, |summaries|, summaries[0]);
      ChosenMeans(total + |first|, summaries[1..], i - 1);
      assert shown[1..] == Chosen(total + |first|, summaries[1..]);
      assert shown[..i][1..] == shown[1..][..i - 1] && shown[..i][0] == first;
    }
  }

  // ----- the budget ------------------------------------------------------------------------------------

  /** By how much the terse forms exceed the 300 characters reserved for each. */
  function Excess(summaries: seq<string>): nat {
    if summaries == [] then 0
    else (if |Brief(summaries[0])| > 300 then |Brief(summaries[0])| - 300 else 0) + Excess(summaries[1..])
  }

  lemma {:induction false} ChosenWithinBudget(total: nat, summaries: seq<string>, over: nat)
    requires total <= LIMIT - 2_000 - 300 * |summaries| + over
    ensures total + Total(Chosen(total, summaries)) <= LIMIT - 2_000 + over + Excess(summaries)
    decreases |summaries|
  {
    if summaries != [] {
      var first := Choice(total, |summaries|, summaries[0]);
      var more := if |Brief(summaries[0])| > 300 then |Brief(summaries[0])| - 300 else 0;
      ChosenWithinBudget(total + |first|, summaries[1..], over + more);
      assert Chosen(total, summaries)[1..] == Chosen(total + |first|, summaries[1..]);
    }
  }

  /** Whatever the summaries, the comment outgrows its budget only by what the terse forms exceed
      their reserve. */
  lemma {:induction false} OutputLength(workflow: string, duration: Option<string>, summaries: seq<string>)
    requires Total(Initial(workflow, duration)) <= LIMIT - 2_000 - 300 * |summaries|
    ensures |JoinLines(AllParts(workflow, duration, summaries))| <= LIMIT - 1_600 + Excess(summaries)
  {
    var start := Initial(workflow, duration);
    var initial := start + if summaries == [] then [Unavailable] else [];
    var chosen := Chosen(Total(initial), summaries);
    if summaries == [] {
      TotalOfConcat(start, [Unavailable]);
      ChosenWithinBudget(Total(initial), summaries, |Unavailable|);
    } else {
      assert initial == start;
      ChosenWithinBudget(Total(initial), summaries, 0);
    }
    TotalOfConcat(initial, chosen);
    TotalOfConcat(initial + chosen, [Footer]);
    assert Total([Footer]) == |Footer| == 51;
    assert |Unavailable| <= 100;
    JoinedLength(AllParts(workflow, duration, summaries));
  }

  lemma {:induction false} NoExcess(summaries: seq<string>)
    requires forall s :: s in summaries ==> |Brief(s)| <= 300
    ensures Excess(summaries) == 0
  {
    if summaries != [] {
      assert summaries[0] in summaries;
      NoExcess(summaries[1..]);
    }
  }

  /** Terse forms within their reserve keep `combine` from raising, for any number of summaries of
      any length. */
  lemma {:induction false} NeverRaises(workflow: string, duration: Option<string>, summaries: seq<string>)
    requires Total(Initial(workflow, duration)) <= LIMIT - 2_000 - 300 * |summaries|
    requires forall s :: s in summaries ==> |Brief(s)| <= 300
    ensures |JoinLines(AllParts(workflow, duration, summaries))| <= LIMIT
  {
    OutputLength(workflow, duration, summaries);
    NoExcess(summaries);
  }

  /** Summaries that fit together are all shown whole. */
  lemma {:induction false} NothingOmitted(total: nat, summaries: seq<string>)
    requires total + Total(summaries) <= LIMIT - 2_000 - 300 * |summaries|
    ensures Chosen(total, summaries) == summaries
    decreases |summaries|
  {
    if summaries != [] {
      NothingOmitted(total + |summaries[0]|, summaries[1..]);
      HeadTail(summaries);
    }
  }

  // ----- exactly when it never raises -------------------------------------------------------------------

  lemma {:induction false} OutputIs(workflow: string, duration: Option<string>, summaries: seq<string>)
    requires summaries != []
    ensures var initial := Initial(workflow, duration);
            |JoinLines(AllParts(workflow, duration, summaries))| ==
            Total(initial) + Total(Chosen(Total(initial), summaries)) + |Footer| + |initial| + |summaries|
  {
    var initial := Initial(workflow, duration);
    var chosen := Chosen(Total(initial), summaries);
    assert initial + [] == initial;
    TotalOfConcat(initial, chosen);
    TotalOfConcat(initial + chosen, [Footer]);
    JoinedLength(AllParts(workflow, duration, summaries));
  }

  /** What may stand before the reserve of `left` summaries. */
  function Share(left: nat): int {
    LIMIT - 2_000 - 300 * left
  }

  /** How far `left` summaries with terse forms of at most `terse` characters reach from `total`:
      the first is shown whole up to the reserve or tersely, whichever is longer, the others
      tersely. */
  function Reach(total: nat, left: nat, terse: nat): int
    requires left > 0
  {
    (if total + terse >= Share(left) then total + terse else Share(left)) + (left - 1) * terse
  }

  ghost predicate TerseWithin(summaries: seq<string>, terse: nat) {
    forall s :: s in summaries ==> |Brief(s)| <= terse
  }

  lemma {:induction false} ReachNext(total: nat, total': nat, left: nat, terse: nat)
    requires left > 1 && terse >= 300
    requires total' <= total + terse || total' <= Share(left)
    ensures Reach(total', left - 1, terse) <= Reach(total, left, terse)
  {
    assert (left - 1) * terse == terse + (left - 2) * terse;
  }

  lemma {:induction false} ChosenWithinReach(total: nat, summaries: seq<string>, terse: nat)
    requires summaries != [] && terse >= 300 && TerseWithin(summaries, terse)
    ensures total + Total(Chosen(total, summaries)) <= Reach(total, |summaries|, terse)
    decreases |summaries|
  {
    var left, rest := |summaries|, summaries[1..];
    var first := |Choice(total, left, summaries[0])|;
    OneChosen(total, summaries);
    assert |Brief(summaries[0])| <= terse;
    if rest != [] {
      ChosenWithinReach(total + first, rest, terse);
      ReachNext(total, total + first, left, terse);
    }
  }

  lemma {:induction false} OneChosen(total: nat, summaries: seq<string>)
    requires summaries != []
    ensures var first := |Choice(total, |summaries|, summaries[0])|;
            Total(Chosen(total, summaries)) == first + Total(Chosen(total + first, summaries[1..]))
  {
  }

  function Letters(n: nat): string {
    seq(n, i => 'a')
  }

  lemma {:induction false} HeadingBefore(heading: string, rest: string)
    requires forall i :: 0 <= i < |heading| ==> heading[i] != '<'
    ensures BeforeDetails(heading + Marker + rest) == heading
  {
    var s := heading + Marker + rest;
    if heading == "" {
      assert s[..|Marker|] == Marker;
    } else {
      assert s[0] == heading[0];
      assert |s| >= |Marker| ==> s[..|Marker|][0] == s[0];
      assert s[1..] == heading[1..] + Marker + rest;
      HeadingBefore(heading[1..], rest);
      HeadTail(heading);
    }
  }

  /** A summary of any length from its marker on, after a heading of `n` letters. */
  function Summary(n: nat, rest: nat): string {
    Letters(n) + Marker + Letters(rest)
  }

  lemma {:induction false} SummaryBrief(n: nat, rest: nat)
    requires n <= 1000
    ensures |Brief(Summary(n, rest))| == n + |Omitted|
  {
    HeadingBefore(Letters(n), Letters(rest));
  }

  function Copies(n: nat, s: string): (r: seq<string>)
    ensures |r| == n
    ensures forall x :: x in r ==> x == s
  {
    if n == 0 then [] else [s] + Copies(n - 1, s)
  }

  /** Summaries too long to be shown are all terse. */
  lemma {:induction false} CopiesChosen(total: nat, n: nat, s: string, terse: nat)
    requires |s| > LIMIT && |Brief(s)| == terse
    ensures Total(Chosen(total, Copies(n, s))) == n * terse
    decreases n
  {
    if n > 0 {
      CopiesChosen(total + terse, n - 1, s, terse);
      OneMoreCopy(total, n, s);
      OneMoreTime(n, terse);
    }
  }

  lemma {:induction false} OneMoreTime(n: nat, terse: nat)
    requires n > 0
    ensures n * terse == terse + (n - 1) * terse
  {
  }

  lemma {:induction false} OneMoreCopy(total: nat, n: nat, s: string)
    requires |s| > LIMIT && n > 0
    ensures Total(Chosen(total, Copies(n, s))) == |Brief(s)| + Total(Chosen(total + |Brief(s)|, Copies(n - 1, s)))
  {
    var copies := Copies(n, s);
    assert copies[0] == s && copies[1..] == Copies(n - 1, s);
    assert Choice(total, n, s) == Brief(s);
    OneChosen(total, copies);
  }

  /** The first of the summaries that reach as far as any can; the others are too long. */
  function First(total: nat, n: nat, terse: nat): string
    requires 300 <= terse <= 1000 + |Omitted|
  {
    if total + terse >= Share(n) then Summary(terse - |Omitted|, LIMIT) else Summary(0, Share(n) - total - |Marker|)
  }

  lemma {:induction false} FirstReaches(total: nat, n: nat, terse: nat)
    requires n > 0 && 300 <= terse <= 1000 + |Omitted|
    ensures var first := First(total, n, terse);
            && |Brief(first)| <= terse
            && Reach(total, n, terse) == total + |Choice(total, n, first)| + (n - 1) * terse
  {
    SummaryBrief(terse - |Omitted|, LIMIT);
    if total + terse < Share(n) { SummaryBrief(0, Share(n) - total - |Marker|); }
  }

  function Furthest(total: nat, n: nat, terse: nat): seq<string>
    requires n > 0 && 300 <= terse <= 1000 + |Omitted|
  {
    [First(total, n, terse)] + Copies(n - 1, Summary(terse - |Omitted|, LIMIT))
  }

  lemma {:induction false} FurthestReaches(total: nat, n: nat, terse: nat)
    requires n > 0 && 300 <= terse <= 1000 + |Omitted|
    ensures TerseWithin(Furthest(total, n, terse), terse)
    ensures total + Total(Chosen(total, Furthest(total, n, terse))) == Reach(total, n, terse)
  {
    var all := Furthest(total, n, terse);
    var long := Summary(terse - |Omitted|, LIMIT);
    SummaryBrief(terse - |Omitted|, LIMIT);
    FirstReaches(total, n, terse);
    assert all[1..] == Copies(n - 1, long);
    OneChosen(total, all);
    CopiesChosen(total + |Choice(total, n, all[0])|, n - 1, long, terse);
  }

  /** No `n` summaries with terse forms of at most `terse` characters make `combine` raise. */
  ghost predicate NeverTooLong(workflow: string, duration: Option<string>, n: nat, terse: nat) {
    forall summaries :: |summaries| == n && TerseWithin(summaries, terse) ==>
      |JoinLines(AllParts(workflow, duration, summaries))| <= LIMIT
  }

  /** The exact threshold, whatever the initial parts.  Terse forms never exceed 1000 characters
      and the note. */
  lemma {:induction false} NeverRaisesExactly(workflow: string, duration: Option<string>, n: nat, terse: nat)
    requires n > 0 && 300 <= terse <= 1000 + |Omitted|
    ensures var initial := Initial(workflow, duration);
            NeverTooLong(workflow, duration, n, terse) <==>
            Reach(Total(initial), n, terse) + |Footer| + |initial| + n <= LIMIT
  {
    var initial := Initial(workflow, duration);
    var total := Total(initial);
    var furthest := Furthest(total, n, terse);
    FurthestReaches(total, n, terse);
    OutputIs(workflow, duration, furthest);
    if Reach(total, n, terse) + |Footer| + |initial| + n <= LIMIT {
      forall summaries | |summaries| == n && TerseWithin(summaries, terse)
        ensures |JoinLines(AllParts(workflow, duration, summaries))| <= LIMIT
      {
        ChosenWithinReach(total, summaries, terse);
        OutputIs(workflow, duration, summaries);
      }
    }
  }

  lemma {:induction false} AllTerse(summaries: seq<string>)
    ensures TerseWithin(summaries, 1000 + |Omitted|)
  {
  }

  /** So with the headings the code allows, some summaries raise from four on, however short the
      initial parts. */
  lemma {:induction false} FourSummariesCanRaise(workflow: string, duration: Option<string>, n: nat)
    requires n >= 4
    ensures !NeverTooLong(workflow, duration, n, 1000 + |Omitted|)
  {
    var initial := Initial(workflow, duration);
    NeverRaisesExactly(workflow, duration, n, 1000 + |Omitted|);
    ReachFour(Total(initial), n);
    assert |Omitted| == 76 && |Footer| == 51 && |initial| >= 2;
  }

  lemma {:induction false} ReachFour(total: nat, n: nat)
    requires n > 0
    ensures n >= 4 ==> Reach(total, n, 1_076) + 53 + n > LIMIT
    ensures n <= 3 && total <= 56_000 ==> Reach(total, n, 1_076) + 54 + n <= LIMIT
  {
  }

  /** Up to three summaries never raise while the initial parts stay within 56000 characters. */
  lemma {:induction false} ThreeSummariesNeverRaise(workflow: string, duration: Option<string>, summaries: seq<string>)
    requires 0 < |summaries| <= 3 && Total(Initial(workflow, duration)) <= 56_000
    ensures |JoinLines(AllParts(workflow, duration, summaries))| <= LIMIT
  {
    var initial := Initial(workflow, duration);
    AllTerse(summaries);
    NeverRaisesExactly(workflow, duration, |summaries|, 1000 + |Omitted|);
    ReachFour(Total(initial), |summaries|);
    assert |Omitted| == 76 && |Footer| == 51 && |initial| <= 3;
  }

  /** A concrete case: sixty long summaries with long headings raise, although the initial parts
      leave all the room they should. */
  lemma {:induction false} LongHeadingsRaise()
    ensures var summaries := Copies(60, Summary(1000, LIMIT));
            && Total(Initial("", None)) <= LIMIT - 2_000 - 300 * |summaries|
            && |JoinLines(AllParts("", None, summaries))| > LIMIT
  {
    var summaries := Copies(60, Summary(1000, LIMIT));
    SummaryBrief(1000, LIMIT);
    assert Initial("", None)[1..] == [Heading];
    assert Total(Initial("", None)) == |Heading| == 17;
    CopiesChosen(17, 60, Summary(1000, LIMIT), 1000 + |Omitted|);
    OutputIs("", None, summaries);
  }
}
