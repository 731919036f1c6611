/**
 * The request-scoped pipeline log (lib/logger.ts): an append-only list of
 * stage records, each also written to the server console as one line.
 */
module Logger {
  import opened Basics

  /** One stage record. Text fields hold "" when absent (the code only tests
      them for truthiness); number fields are None when undefined.
      droppedReasons is the reason-to-count record, as (reason, count) pairs
      in key order. */
  datatype PipelineLog = PipelineLog(
    stage: string,
    board: string,
    query: string,
    rawResultCount: Option<int>,
    normalisedCount: Option<int>,
    droppedCount: Option<int>,
    droppedReasons: Option<seq<(string, int)>>,
    error: string,
    durationMs: Option<int>)

  /** A record with only a stage name set. */
  function StageLog(stage: string): PipelineLog {
    PipelineLog(stage, "", "", None, None, None, None, "", None)
  }

  class PipelineLogger {
    var logs: seq<PipelineLog>

    /** A new logger holds no records. */
    constructor ()
      ensures logs == []
    {
      logs := [];
    }

    /** Appends the record; the line it is also written as on the console
        is ConsoleLine(entry). */
    method Log(entry: PipelineLog)
      modifies this
      ensures logs == old(logs) + [entry]
    {
      logs := logs + [entry];
    }

    /** A copy of the records, in call order; the log itself is kept. */
    method Flush() returns (r: seq<PipelineLog>)
      ensures r == logs
    {
      r := logs;
    }
  }

  /** Two flushes with no record in between return equal lists, and a record
      logged after a flush does not change what that flush returned. */
  method FlushTwice(logger: PipelineLogger, entry: PipelineLog)
    returns (first: seq<PipelineLog>, second: seq<PipelineLog>, third: seq<PipelineLog>)
    modifies logger
    ensures first == second == old(logger.logs)
    ensures third == first + [entry]
  {
    first := logger.Flush();
    second := logger.Flush();
    logger.Log(entry);
    third := logger.Flush();
  }

  /** "[stage:board]" when a board is named, "[stage]" otherwise. */
  function Prefix(entry: PipelineLog): (p: string)
    ensures entry.board != "" ==> p == "[" + entry.stage + ":" + entry.board + "]"
    ensures entry.board == "" ==> p == "[" + entry.stage + "]"
  {
    if entry.board != "" then "[" + entry.stage + ":" + entry.board + "]"
    else "[" + entry.stage + "]"
  }

  /** The seven detail slots, in the order they are printed; None for a slot
      whose field is absent. */
  function DetailSlots(entry: PipelineLog): (slots: seq<Option<string>>)
    ensures |slots| == 7
  {
    [ if entry.query != "" then Some("query=\"" + Take(entry.query, 100) + "...\"") else None,
      if entry.rawResultCount.Some? then Some("raw=" + DecimalString(entry.rawResultCount.value)) else None,
      if entry.normalisedCount.Some? then Some("normalised=" + DecimalString(entry.normalisedCount.value)) else None,
      if entry.droppedCount.Some? then Some("dropped=" + DecimalString(entry.droppedCount.value)) else None,
      if entry.droppedReasons.Some? then Some("reasons=" + JsonRecord(entry.droppedReasons.value)) else None,
      if entry.durationMs.Some? then Some(DecimalString(entry.durationMs.value) + "ms") else None,
      if entry.error != "" then Some("ERROR: " + entry.error) else None ]
  }

  function Opt(slot: Option<string>): seq<string> {
    if slot.Some? then [slot.value] else []
  }

  /** The number of present slots. */
  function CountPresent(slots: seq<Option<string>>): nat {
    if slots == [] then 0
    else CountPresent(slots[..|slots| - 1]) + (if slots[|slots| - 1].Some? then 1 else 0)
  }

  /** The texts of the present slots, in slot order. */
  function Present(slots: seq<Option<string>>): (r: seq<string>)
    ensures |r| == CountPresent(slots)
  {
    if slots == [] then [] else Present(slots[..|slots| - 1]) + Opt(slots[|slots| - 1])
  }

  /** The details of a record: exactly the present slots, in the fixed order
      query, raw, normalised, dropped, reasons, duration, error; as many as
      there are present fields, and at most seven. */
  function Details(entry: PipelineLog): (r: seq<string>)
    ensures |r| == CountPresent(DetailSlots(entry)) <= 7
  {
    CountPresentAtMost(DetailSlots(entry));
    Present(DetailSlots(entry))
  }

  lemma {:induction false} CountPresentAtMost(slots: seq<Option<string>>)
    ensures CountPresent(slots) <= |slots|
  {
    if slots != [] {
      CountPresentAtMost(slots[..|slots| - 1]);
    }
  }

  /** A present slot's text stands in the list of present texts at the
      position given by the number of present slots before it. */
  lemma {:induction false} PresentAt(slots: seq<Option<string>>, k: nat)
    requires k < |slots| && slots[k].Some?
    ensures CountPresent(slots[..k]) < |Present(slots)|
    ensures Present(slots)[CountPresent(slots[..k])] == slots[k].value
  {
    var n := |slots| - 1;
    if k < n {
      assert slots[..n][..k] == slots[..k];
      PresentAt(slots[..n], k);
    } else {
      assert slots[..k] == slots[..n];
    }
  }

  /** More slots never hold fewer present ones; a present slot adds one. */
  lemma {:induction false} CountPresentGrows(slots: seq<Option<string>>, k: nat, l: nat)
    requires k < l <= |slots| && slots[k].Some?
    ensures CountPresent(slots[..k]) < CountPresent(slots[..l])
  {
    if l == k + 1 {
      assert slots[..l][..k] == slots[..k];
    } else {
      CountPresentGrows(slots, k, l - 1);
      assert slots[..l][..l - 1] == slots[..l - 1];
    }
  }

  /** Every present detail appears, and before the detail of every later
      present field: for slots k < l that are both present, the detail of k
      stands at an earlier position than that of l. */
  lemma DetailOrder(entry: PipelineLog, k: nat, l: nat)
    requires k < l < 7
    requires DetailSlots(entry)[k].Some? && DetailSlots(entry)[l].Some?
    ensures var s, d := DetailSlots(entry), Details(entry);
            var p, q := CountPresent(s[..k]), CountPresent(s[..l]);
            p < q < |d| && d[p] == s[k].value && d[q] == s[l].value
  {
    var s := DetailSlots(entry);
    PresentAt(s, k);
    PresentAt(s, l);
    CountPresentGrows(s, k, l);
  }

  /** The console line: the prefix, a space, and the details joined by " | ". */
  function ConsoleLine(entry: PipelineLog): (line: string)
    ensures StartsWith(line, Prefix(entry) + " ")
  {
    var p := Prefix(entry) + " ";
    var line := p + Join(Details(entry), " | ");
    assert line[..|p|] == p;
    line
  }

  function Join(parts: seq<string>, sep: string): string {
    if parts == [] then ""
    else if |parts| == 1 then parts[0]
    else parts[0] + sep + Join(parts[1..], sep)
  }

  /** A record with only a stage name prints its prefix and nothing else. */
  lemma BareStageLine(stage: string)
    ensures ConsoleLine(StageLog(stage)) == "[" + stage + "] "
  {
    var s := DetailSlots(StageLog(stage));
    NonePresent(s);
    assert Details(StageLog(stage)) == [];
  }

  lemma {:induction false} NonePresent(slots: seq<Option<string>>)
    requires forall k :: 0 <= k < |slots| ==> slots[k].None?
    ensures CountPresent(slots) == 0
  {
    if slots != [] {
      NonePresent(slots[..|slots| - 1]);
    }
  }

  /** A long query is cut to its first 100 characters. */
  lemma QueryDetail(entry: PipelineLog)
    requires entry.query != ""
    ensures |Details(entry)| >= 1
    ensures Details(entry)[0] == "query=\"" + entry.query[..Min(100, |entry.query|)] + "...\""
  {
    var s := DetailSlots(entry);
    PresentAt(s, 0);
    assert s[..0] == [];
  }

  // ---------------------------------------------------------------------------
  // JSON.stringify of the drop-reason record

  /** The JSON text of a record from reasons to counts: `{"reason":count,...}`. */
  function JsonRecord(pairs: seq<(string, int)>): (r: string)
    ensures |r| >= 2 && r[0] == '{' && r[|r| - 1] == '}'
  {
    "{" + JsonMembers(pairs) + "}"
  }

  function JsonMembers(pairs: seq<(string, int)>): string {
    if pairs == [] then ""
    else if |pairs| == 1 then JsonMember(pairs[0])
    else JsonMember(pairs[0]) + "," + JsonMembers(pairs[1..])
  }

  function JsonMember(p: (string, int)): string {
    JsonString(p.0) + ":" + DecimalString(p.1)
  }

  /** A JSON string literal: quotes, with the quote, the backslash and the
      control characters escaped. */
  function JsonString(s: string): (r: string)
    ensures |r| >= 2 && r[0] == '"' && r[|r| - 1] == '"'
    ensures (forall i :: 0 <= i < |s| ==> !NeedsEscape(s[i])) ==> r == "\"" + s + "\""
  {
    "\"" + JsonChars(s) + "\""
  }

  predicate NeedsEscape(c: char) {
    c == '"' || c == '\\' || (c as int) < 0x20
  }

  function JsonChars(s: string): (r: string)
    ensures (forall i :: 0 <= i < |s| ==> !NeedsEscape(s[i])) ==> r == s
  {
    if s == [] then ""
    else JsonChar(s[0]) + JsonChars(s[1..])
  }

  function JsonChar(c: char): string {
    if c == '"' then "\\\""
    else if c == '\\' then "\\\\"
    else if c as int == 0x08 then "\\b"
    else if c as int == 0x0C then "\\f"
    else if c as int == 0x0A then "\\n"
    else if c as int == 0x0D then "\\r"
    else if c as int == 0x09 then "\\t"
    else if (c as int) < 0x20 then "\\u00" + [DigitChar((c as int) / 16), DigitChar((c as int) % 16)]
    else [c]
  }
}
