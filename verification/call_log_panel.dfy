/** The call log of one lead (apps/web-dashboard/components/CallLogPanel.tsx):
    the logged calls, the logging form, and the duration arithmetic. */
module CallLogPanel {
  import opened Optional
  import opened Text
  import opened Types

  predicate IsDigit(c: char) {
    '0' <= c <= '9'
  }

  predicate AllDigits(s: string) {
    forall i | 0 <= i < |s| :: IsDigit(s[i])
  }

  /** Length of the run of decimal digits at the front of `s`. */
  function DigitRun(s: string): (n: nat)
    ensures n <= |s| && AllDigits(s[..n])
    ensures n < |s| ==> !IsDigit(s[n])
  {
    if s == [] || !IsDigit(s[0]) then 0
    else
      var n := 1 + DigitRun(s[1..]);
      assert forall i | 1 <= i < n :: s[..n][i] == s[1..][..n - 1][i - 1];
      n
  }

  /** The value of a string of decimal digits, most significant first. */
  function DigitsValue(ds: string): nat
    requires AllDigits(ds)
  {
    if ds == [] then 0
    else DigitsValue(ds[..|ds| - 1]) * 10 + ((ds[|ds| - 1] as int) - ('0' as int))
  }

  /** `parseInt(s)` in base 10: leading white space, an optional sign, then
      the longest run of digits; `None` stands for `NaN`, when there is no
      digit to read. */
  function ParseInt(s: string): Option<int> {
    ParseTrimmed(TrimStart(s))
  }

  /** `parseInt` once the leading white space is gone. */
  function ParseTrimmed(t: string): Option<int> {
    var negative := |t| > 0 && t[0] == '-';
    var body := if |t| > 0 && (t[0] == '-' || t[0] == '+') then t[1..] else t;
    var n := DigitRun(body);
    if n == 0 then None
    else
      var v: int := DigitsValue(body[..n]);
      Some(if negative then -v else v)
  }

  /** The decimal spelling of a natural number, as a number input holds it. */
  function Decimal(n: nat): (s: string)
    ensures |s| > 0 && AllDigits(s)
  {
    var last := [((n % 10) + ('0' as int)) as char];
    if n < 10 then last else Decimal(n / 10) + last
  }

  lemma {:induction false} DecimalValue(n: nat)
    ensures DigitsValue(Decimal(n)) == n
  {
    var s := Decimal(n);
    assert s[..|s| - 1] == (if n < 10 then [] else Decimal(n / 10));
    if n >= 10 {
      DecimalValue(n / 10);
    }
  }

  /** A string that starts with neither white space nor anything else
      `trimStart` removes is left as it is. */
  lemma {:induction false} TrimStartKeeps(s: string)
    requires s != [] && (IsDigit(s[0]) || s[0] == '-')
    ensures TrimStart(s) == s
  {
    assert !IsJsWhitespace(s[0]);
  }

  /** `parseInt` reads a string of digits as its value. */
  lemma {:induction false} ParseIntDigits(s: string)
    requires |s| > 0 && AllDigits(s)
    ensures ParseInt(s) == Option<int>.Some(DigitsValue(s))
  {
    TrimStartKeeps(s);
    DigitRunAll(s);
    assert s[..|s|] == s;
  }

  /** `parseInt` reads a minus sign and a string of digits as the negated value. */
  lemma {:induction false} ParseIntMinusDigits(s: string)
    requires |s| > 0 && AllDigits(s)
    ensures ParseInt("-" + s) == Option<int>.Some(-(DigitsValue(s) as int))
  {
    var m := "-" + s;
    TrimStartKeeps(m);
    assert m[1..] == s;
    DigitRunAll(s);
    assert s[..|s|] == s;
  }

  /** `parseInt` reads back every natural number ... */
  lemma {:induction false} ParseIntDecimal(n: nat)
    ensures ParseInt(Decimal(n)) == Option<int>.Some(n)
  {
    ParseIntDigits(Decimal(n));
    DecimalValue(n);
  }

  /** ... and its negation. */
  lemma {:induction false} ParseIntNegativeDecimal(n: nat)
    ensures ParseInt("-" + Decimal(n)) == Option<int>.Some(-(n as int))
  {
    var s := Decimal(n);
    var m := "-" + s;
    DecimalValue(n);
    ParseIntMinusDigits(s);
    assert ParseInt(m) == Option<int>.Some(-(DigitsValue(s) as int));
  }

  lemma {:induction false} DigitRunAll(s: string)
    requires AllDigits(s)
    ensures DigitRun(s) == |s|
  {
    if s != [] {
      DigitRunAll(s[1..]);
    }
  }

  /** What `formatDuration` renders: "ไม่ระบุ" (not specified), or
      `${mins} นาที ${secs} วินาที`. */
  datatype DurationText = NotSpecified | MinutesSeconds(mins: int, secs: int)

  /** JavaScript's `%`: the remainder takes the sign of the dividend. */
  function JsRem(a: int, b: int): int
    requires b > 0
  {
    if a >= 0 then a % b else -((-a) % b)
  }

  /** `formatDuration`: a missing or zero duration is not specified;
      otherwise `Math.floor(seconds / 60)` minutes and `seconds % 60` seconds. */
  function FormatDuration(seconds: Option<int>): DurationText {
    if seconds.None? || seconds.value == 0 then NotSpecified
    else MinutesSeconds(seconds.value / 60, JsRem(seconds.value, 60))
  }

  /** For a positive duration the text is the duration in minutes and
      seconds: the parts add back up to it, and the seconds stay below 60. */
  lemma FormatDurationPositive(s: int)
    requires s > 0
    ensures FormatDuration(Some(s)).MinutesSeconds?
    ensures var t := FormatDuration(Some(s));
            t.mins >= 0 && 0 <= t.secs < 60 && t.mins * 60 + t.secs == s
  {
  }

  /** A negative duration that is not a whole number of minutes (the hint
      under the input shows one while "-30" is typed) comes out a minute too
      long: the floored minutes and the truncated seconds together make
      `s - 60`. */
  lemma FormatDurationNegative(s: int)
    requires s < 0 && s % 60 != 0
    ensures FormatDuration(Some(s)).MinutesSeconds?
    ensures var t := FormatDuration(Some(s));
            -60 < t.secs < 0 && t.mins * 60 + t.secs == s - 60
  {
    var a := -s;
    assert a == (a / 60) * 60 + a % 60;
    assert s / 60 == -(a / 60) - 1;
  }

  /** The duration a call adds to the total: `call.duration || 0`. */
  function Seconds(call: Call): int {
    call.duration.GetOr(0)
  }

  /** `calls.reduce((sum, call) => sum + (call.duration || 0), 0)`. */
  function TotalDuration(calls: seq<Call>): int {
    if calls == [] then 0 else Seconds(calls[0]) + TotalDuration(calls[1..])
  }

  /** The total does not depend on how the list is split, so prepending a
      call (as a submit does) and appending it give the same total. */
  lemma {:induction false} TotalDurationAppend(a: seq<Call>, b: seq<Call>)
    ensures TotalDuration(a + b) == TotalDuration(a) + TotalDuration(b)
  {
    if a == [] {
      assert a + b == b;
    } else {
      assert (a + b)[0] == a[0];
      assert (a + b)[1..] == a[1..] + b;
      TotalDurationAppend(a[1..], b);
    }
  }

  /** Prepending a call adds its duration to the total. */
  lemma TotalDurationCons(call: Call, calls: seq<Call>)
    ensures TotalDuration([call] + calls) == Seconds(call) + TotalDuration(calls)
  {
    assert ([call] + calls)[1..] == calls;
  }

  /** With durations that are never negative the total is not negative, and
      it is zero, shown as "not specified", exactly when no call has a
      positive duration. */
  lemma {:induction false} TotalDurationZero(calls: seq<Call>)
    requires forall i | 0 <= i < |calls| :: Seconds(calls[i]) >= 0
    ensures TotalDuration(calls) >= 0
    ensures TotalDuration(calls) == 0 <==> forall i | 0 <= i < |calls| :: Seconds(calls[i]) == 0
    ensures FormatDuration(Some(TotalDuration(calls))) == NotSpecified <==>
              forall i | 0 <= i < |calls| :: Seconds(calls[i]) == 0
  {
    if calls != [] {
      assert forall i | 0 <= i < |calls[1..]| :: calls[1..][i] == calls[i + 1];
      TotalDurationZero(calls[1..]);
      if TotalDuration(calls) == 0 {
        forall i | 0 <= i < |calls|
          ensures Seconds(calls[i]) == 0
        {
          if i > 0 {
            assert calls[1..][i - 1] == calls[i];
          }
        }
      }
    }
  }

  function StatusIcon(status: string): string {
    match status
    case "completed" => "✅"
    case "missed" => "❌"
    case "scheduled" => "📅"
    case _ => "📞"
  }

  /** `getStatusLabel`: an unknown status is shown as itself. */
  function StatusLabel(status: string): string {
    match status
    case "completed" => "สำเร็จ"
    case "missed" => "ไม่รับสาย"
    case "scheduled" => "นัดหมาย"
    case _ => status
  }

  /** Each call status has its own icon and Thai label; any other string
      gets the telephone icon and is shown unchanged. */
  lemma StatusBadges(a: CallStatus, b: CallStatus, other: string)
    requires other !in {"completed", "missed", "scheduled"}
    ensures a != b ==> StatusIcon(CallStatusName(a)) != StatusIcon(CallStatusName(b))
    ensures a != b ==> StatusLabel(CallStatusName(a)) != StatusLabel(CallStatusName(b))
    ensures StatusIcon(CallStatusName(a)) != StatusIcon(other) == "📞"
    ensures StatusLabel(other) == other
  {
  }

  /** The logging form; `duration` is the raw text of the number input. */
  datatype CallForm = CallForm(duration: string, notes: string, status: CallStatus)

  const EmptyForm := CallForm("", "", Completed)

  /** The hint under the duration input: nothing while it is empty. */
  function DurationHint(form: CallForm): Option<DurationText> {
    if form.duration == "" then None else Some(FormatDuration(ParseInt(form.duration)))
  }

  /** The hint is missing exactly while the input is empty; a typed whole
      number of seconds shows as minutes and seconds that add back up to it,
      zero shows as not specified, and a typed negative number that is not
      a whole number of minutes shows a minute too much. */
  lemma DurationHintShowsTypedDuration(form: CallForm, n: nat)
    ensures DurationHint(form).None? <==> form.duration == ""
    ensures form.duration == Decimal(0) ==> DurationHint(form) == Some(NotSpecified)
    ensures form.duration == Decimal(n) && n > 0 ==>
              DurationHint(form).Some? && DurationHint(form).value.MinutesSeconds? &&
              0 <= DurationHint(form).value.secs < 60 &&
              DurationHint(form).value.mins * 60 + DurationHint(form).value.secs == n
    ensures form.duration == "-" + Decimal(n) && n % 60 != 0 ==>
              DurationHint(form).Some? && DurationHint(form).value.MinutesSeconds? &&
              DurationHint(form).value.mins * 60 + DurationHint(form).value.secs == -(n as int) - 60
  {
    if form.duration == Decimal(0) {
      ParseIntDecimal(0);
    }
    if form.duration == Decimal(n) && n > 0 {
      ParseIntDecimal(n);
      FormatDurationPositive(n);
    }
    if form.duration == "-" + Decimal(n) && n % 60 != 0 {
      ParseIntNegativeDecimal(n);
      FormatDurationNegative(-(n as int));
    }
  }

  /** The record a submit creates; an empty duration is left out and one that
      does not parse is `NaN`, which every later use treats as missing. */
  function NewCall(leadId: string, form: CallForm, stamp: string, now: string): (c: Call)
    ensures c.leadId == leadId && c.userId == "user1" && c.status == form.status
    ensures c.notes == Some(form.notes) && c.createdAt == now && c.id == "call-" + stamp
    ensures form.duration == "" ==> c.duration.None?
  {
    Call("call-" + stamp, leadId, "user1",
         if form.duration == "" then None else ParseInt(form.duration),
         Some(form.notes), form.status, now)
  }

  /** A duration typed as a whole number of seconds is stored as that number. */
  lemma NewCallDuration(leadId: string, form: CallForm, stamp: string, now: string, n: nat)
    requires form.duration == Decimal(n)
    ensures NewCall(leadId, form, stamp, now).duration == Some(n)
  {
    ParseIntDecimal(n);
  }

  class CallLog {
    var leadId: string
    var calls: seq<Call>
    var isLogging: bool
    var form: CallForm

    constructor (leadId: string)
      ensures this.leadId == leadId && calls == [] && !isLogging && form == EmptyForm
    {
      this.leadId, calls, isLogging, form := leadId, [], false, EmptyForm;
    }

    /** The lead prop changes: its stored calls replace the list; an open
        form stays open with its contents. */
    method LoadLead(id: string, stored: map<string, seq<Call>>)
      modifies this
      ensures leadId == id && calls == (if id in stored then stored[id] else [])
      ensures isLogging == old(isLogging) && form == old(form)
    {
      leadId := id;
      calls := if id in stored then stored[id] else [];
    }

    method StartLogging()
      modifies this
      ensures isLogging
      ensures leadId == old(leadId) && calls == old(calls) && form == old(form)
    {
      isLogging := true;
    }

    method SetStatus(status: CallStatus)
      modifies this
      ensures form == old(form).(status := status)
      ensures leadId == old(leadId) && calls == old(calls) && isLogging == old(isLogging)
    {
      form := form.(status := status);
    }

    method SetDuration(duration: string)
      modifies this
      ensures form == old(form).(duration := duration)
      ensures leadId == old(leadId) && calls == old(calls) && isLogging == old(isLogging)
    {
      form := form.(duration := duration);
    }

    method SetNotes(notes: string)
      modifies this
      ensures form == old(form).(notes := notes)
      ensures leadId == old(leadId) && calls == old(calls) && isLogging == old(isLogging)
    {
      form := form.(notes := notes);
    }

    /** Submitting the open form (the browser refuses empty notes): the new
        call goes to the front, the total grows by its duration, and the form
        is reset and closed. */
    method HandleSubmitCall(stamp: string, now: string)
      requires isLogging && form.notes != ""
      modifies this
      ensures calls == [NewCall(old(leadId), old(form), stamp, now)] + old(calls)
      ensures TotalDuration(calls) == TotalDuration(old(calls)) + Seconds(NewCall(old(leadId), old(form), stamp, now))
      ensures form == EmptyForm && !isLogging && leadId == old(leadId)
    {
      var call := NewCall(leadId, form, stamp, now);
      TotalDurationCons(call, calls);
      calls, form, isLogging := [call] + calls, EmptyForm, false;
    }

    /** The cancel button: the form is reset and closed, no call is added. */
    method Cancel()
      modifies this
      ensures !isLogging && form == EmptyForm
      ensures leadId == old(leadId) && calls == old(calls)
    {
      isLogging := false;
      form := EmptyForm;
    }
  }
}
