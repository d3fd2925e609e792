/**
 * The Cases field of the full user-info embed: which of the user's
 * moderation cases are summarised, in which order, how each one is
 * written, and the label and total shown with them (getUserInfoEmbed.ts).
 */
module Cases {
  import opened Wrappers
  import opened Strings
  import opened Sequences

  /** At most this many cases are written out in the summary. */
  const MaxCasesInSummary: nat := 3

  /**
   * A stored moderation case. `createdAt` is the creation time as an
   * ordered key; `typeName` is the name of the case type (`CaseTypes[type]`);
   * `logMessageId` is `"<channel>-<message>"` of the case's log post, if any.
   */
  datatype Case = Case(isHidden: bool, createdAt: int, caseNumber: nat, typeName: string, logMessageId: Option<string>)

  /** What `messageLink(guild, channel, message)` points to; the URL text is not modelled. */
  datatype MessageLink = MessageLink(guildId: string, channelId: string, messageId: Option<string>)

  /** One case of the summary: its `Type (#n)` text, as a link to its log message when it has one. */
  datatype SummaryEntry = Plain(text: string) | Linked(text: string, link: MessageLink)

  /** The Cases field: the total count, the label and the summarised cases. */
  datatype CaseSummary = CaseSummary(total: nat, summaryLabel: string, entries: seq<SummaryEntry>)

  predicate IsVisible(c: Case) {
    !c.isHidden
  }

  /** The cases that are not hidden, in stored order. */
  function VisibleCases(cases: seq<Case>): (r: seq<Case>)
    ensures forall i :: 0 <= i < |r| ==> !r[i].isHidden && r[i] in cases
  {
    var kept := Filter(cases, IsVisible);
    FilterMultiset(cases, IsVisible);
    forall i | 0 <= i < |kept| ensures !kept[i].isHidden && kept[i] in cases {
      assert kept[i] in multiset(kept);
    }
    kept
  }

  /** Every occurrence of a visible case is kept, and no hidden case. */
  lemma VisibleCasesCount(cases: seq<Case>)
    ensures forall x :: multiset(VisibleCases(cases))[x] == if x.isHidden then 0 else multiset(cases)[x]
  {
    FilterMultiset(cases, IsVisible);
  }

  /** Hidden cases are ignored: inserting one anywhere leaves the visible cases as they were. */
  lemma HiddenCaseIgnored(before: seq<Case>, hidden: Case, after: seq<Case>)
    requires hidden.isHidden
    ensures VisibleCases(before + [hidden] + after) == VisibleCases(before + after)
  {
    assert Filter([hidden], IsVisible) == [] by {
      assert [hidden][1..] == [];
    }
    calc {
      VisibleCases(before + [hidden] + after);
      Filter((before + [hidden]) + after, IsVisible);
      { FilterConcat(before + [hidden], after, IsVisible); }
      Filter(before + [hidden], IsVisible) + Filter(after, IsVisible);
      { FilterConcat(before, [hidden], IsVisible); }
      Filter(before, IsVisible) + Filter([hidden], IsVisible) + Filter(after, IsVisible);
      Filter(before, IsVisible) + Filter(after, IsVisible);
      { FilterConcat(before, after, IsVisible); }
      VisibleCases(before + after);
    }
  }

  /** The key the cases are ordered by. */
  function CreatedAt(c: Case): int {
    c.createdAt
  }

  /**
   * The cases from newest to oldest by creation time. The source's
   * comparator never reports two cases as equal, so the order of cases
   * created at the same time is left unspecified.
   */
  function NewestFirst(cases: seq<Case>): (r: seq<Case>)
    ensures |r| == |cases|
    ensures forall i, j :: 0 <= i < j < |r| ==> r[i].createdAt >= r[j].createdAt
  {
    SortDesc(cases, CreatedAt)
  }

  /** Ordering the cases loses and adds none. */
  lemma NewestFirstPermutes(cases: seq<Case>)
    ensures multiset(NewestFirst(cases)) == multiset(cases)
  {
    SortDescPermutes(cases, CreatedAt);
  }

  /** The visible cases newest first, cut to the summary's limit. */
  function ShownCases(cases: seq<Case>): seq<Case>
  {
    var ordered := NewestFirst(VisibleCases(cases));
    ordered[..Min(MaxCasesInSummary, |ordered|)]
  }

  /**
   * The summary shows as many cases as fit under the limit, all of them
   * visible, newest first.
   */
  lemma ShownCasesAreVisibleNewestFirst(cases: seq<Case>)
    ensures var shown := ShownCases(cases);
      && |shown| == Min(MaxCasesInSummary, |VisibleCases(cases)|)
      && (forall i :: 0 <= i < |shown| ==> !shown[i].isHidden && shown[i] in cases)
      && (forall i, j :: 0 <= i < j < |shown| ==> shown[i].createdAt >= shown[j].createdAt)
  {
    var visible := VisibleCases(cases);
    var ordered := NewestFirst(visible);
    var shown := ordered[..Min(MaxCasesInSummary, |ordered|)];
    NewestFirstPermutes(visible);
    forall i | 0 <= i < |shown| ensures !shown[i].isHidden && shown[i] in cases {
      assert shown[i] == ordered[i];
      assert ordered[i] in multiset(ordered);
      assert ordered[i] in multiset(visible);
    }
  }

  /** In a list ordered newest first, nothing after position `k` is newer than anything before it. */
  lemma NewestPrefix(ordered: seq<Case>, k: nat)
    requires k <= |ordered|
    requires forall i, j :: 0 <= i < j < |ordered| ==> ordered[i].createdAt >= ordered[j].createdAt
    ensures forall x, i :: x in multiset(ordered[k..]) && 0 <= i < k ==> x.createdAt <= ordered[i].createdAt
  {
  }

  /**
   * The summary is taken from the visible cases, and no visible case left
   * out of it is newer than any case shown.
   */
  lemma ShownCasesAreNewest(cases: seq<Case>)
    ensures var shown := ShownCases(cases);
      && multiset(shown) <= multiset(VisibleCases(cases))
      && (forall x, i :: x in multiset(VisibleCases(cases)) - multiset(shown) && 0 <= i < |shown| ==>
            x.createdAt <= shown[i].createdAt)
  {
    var visible := VisibleCases(cases);
    var ordered := NewestFirst(visible);
    var k := Min(MaxCasesInSummary, |ordered|);
    NewestFirstPermutes(visible);
    assert ordered == ordered[..k] + ordered[k..];
    assert multiset(ordered) == multiset(ordered[..k]) + multiset(ordered[k..]);
    NewestPrefix(ordered, k);
  }

  /** `Type (#n)`: the case type's name and the case number. */
  function SummaryText(c: Case): string
  {
    c.typeName + " (#" + NatToString(c.caseNumber) + ")"
  }

  /** The number in a case's text reads back as its case number. */
  lemma SummaryTextCaseNumber(c: Case)
    ensures var number := NatToString(c.caseNumber);
      && SummaryText(c) == c.typeName + " (#" + number + ")"
      && DigitsValue(number) == c.caseNumber
  {
    NatToStringValue(c.caseNumber);
  }

  /** The link to a case's log message: the first two `-`-separated pieces of its id. */
  function LogLink(guildId: string, logMessageId: string): MessageLink
  {
    var parts := Split(logMessageId, '-');
    MessageLink(guildId, parts[0], if |parts| > 1 then Some(parts[1]) else None)
  }

  /** A `<channel>-<message>` id links to that channel and message. */
  lemma LogLinkOfChannelMessage(guildId: string, channelId: string, messageId: string)
    requires '-' !in channelId && '-' !in messageId
    ensures LogLink(guildId, channelId + "-" + messageId) == MessageLink(guildId, channelId, Some(messageId))
  {
    SplitAfterPiece(channelId, '-', messageId);
    SplitWhole(messageId, '-');
  }

  /**
   * In general the link takes the id up to its first `-` as the channel and
   * the piece after it, up to the next `-`, as the message; an id without
   * `-` is all channel and leaves the message out.
   */
  lemma {:induction false} LogLinkReadsId(guildId: string, logMessageId: string)
    ensures var link := LogLink(guildId, logMessageId);
      && link.guildId == guildId
      && '-' !in link.channelId
      && (link.messageId.None? ==> link.channelId == logMessageId)
      && (link.messageId.Some? ==>
            var prefix := link.channelId + "-" + link.messageId.value;
            && '-' !in link.messageId.value
            && |prefix| <= |logMessageId|
            && logMessageId[..|prefix|] == prefix
            && (|prefix| == |logMessageId| || logMessageId[|prefix|] == '-'))
  {
    var parts := Split(logMessageId, '-');
    SplitJoin(logMessageId, '-');
    if |parts| == 2 {
      assert parts == [parts[0]] + [parts[1]];
      JoinAppend([parts[0]], [parts[1]], "-");
    } else if |parts| > 2 {
      assert parts == [parts[0], parts[1]] + parts[2..];
      JoinAppend([parts[0], parts[1]], parts[2..], "-");
      assert Join([parts[0], parts[1]], "-") == parts[0] + "-" + parts[1];
    }
  }

  /**
   * A case is written as a link exactly when it has a non-empty log message
   * id, and then to the message that id names; the text is the same either way.
   */
  function Summarise(c: Case, guildId: string): (e: SummaryEntry)
    ensures e.Linked? <==> Truthy(c.logMessageId)
    ensures e.Linked? ==> e.link == LogLink(guildId, c.logMessageId.value)
    ensures e.text == SummaryText(c)
  {
    if Truthy(c.logMessageId) then Linked(SummaryText(c), LogLink(guildId, c.logMessageId.value))
    else Plain(SummaryText(c))
  }

  /** A case logged as `<channel>-<message>` is written as a link to that guild, channel and message. */
  lemma SummariseChannelMessage(c: Case, guildId: string, channelId: string, messageId: string)
    requires c.logMessageId == Some(channelId + "-" + messageId)
    requires '-' !in channelId && '-' !in messageId
    ensures Summarise(c, guildId) == Linked(SummaryText(c), MessageLink(guildId, channelId, Some(messageId)))
  {
    LogLinkOfChannelMessage(guildId, channelId, messageId);
  }

  /** `"Last 3 cases"` above the limit, `"Summary"` otherwise. */
  function SummaryLabel(total: nat): string
  {
    if total > MaxCasesInSummary then "Last 3 cases" else "Summary"
  }

  /**
   * The Cases field for the user's stored cases, or nothing when every
   * case is hidden: the count of visible cases, the label, and the shown
   * cases written out in order.
   */
  function CaseSummaryOf(cases: seq<Case>, guildId: string): (r: Option<CaseSummary>)
    ensures r.Some? <==> exists i :: 0 <= i < |cases| && !cases[i].isHidden
    ensures r.Some? ==> r.value.total == |VisibleCases(cases)| > 0
    ensures r.Some? ==> |r.value.entries| == Min(MaxCasesInSummary, r.value.total)
    ensures r.Some? ==> (r.value.summaryLabel == "Last 3 cases" <==> |r.value.entries| < r.value.total)
    ensures r.Some? ==> (r.value.summaryLabel == "Summary" <==> |r.value.entries| == r.value.total)
    ensures r.Some? ==> forall i :: 0 <= i < |r.value.entries| ==>
      r.value.entries[i] == Summarise(ShownCases(cases)[i], guildId)
  {
    var visible := VisibleCases(cases);
    assert |visible| > 0 <==> exists i :: 0 <= i < |cases| && !cases[i].isHidden by {
      if exists i :: 0 <= i < |cases| && !cases[i].isHidden {
        var i :| 0 <= i < |cases| && !cases[i].isHidden;
        VisibleCasesCount(cases);
        assert cases[i] in multiset(cases);
        assert cases[i] in multiset(visible);
      }
    }
    if |visible| == 0 then None
    else
      var shown := ShownCases(cases);
      Some(CaseSummary(|visible|, SummaryLabel(|visible|),
        seq(|shown|, i requires 0 <= i < |shown| => Summarise(shown[i], guildId))))
  }
}
