/**
 * The `TodoForm` dialog of the older front end: its field state, the
 * blank-task check, and the local `YYYY-MM-DD` text it sends for the picked
 * date. A `Date` is modelled by its local calendar fields; `new Date(text)`
 * for an existing due date is the parameter `parseDate`.
 */
module LegacyTodoForm {
  import opened Wrappers
  import opened JsValues
  import opened Text
  import opened ApiTypes

  /** `getFullYear()`, `getMonth()` (0 for January) and `getDate()` of a local date. */
  datatype CalendarDate = CalendarDate(year: int, monthIndex: int, day: int)

  predicate ValidDate(d: CalendarDate)
  {
    0 <= d.monthIndex <= 11 && 1 <= d.day <= 31
  }

  /** The number `n` as exactly two decimal digits, for `1 <= n <= 99`. */
  lemma TwoDigits(n: nat)
    requires 1 <= n <= 99
    ensures |PadStart2(NatToString(n))| == 2
    ensures forall i :: 0 <= i < 2 ==> IsDigit(PadStart2(NatToString(n))[i])
    ensures ParseDigits(PadStart2(NatToString(n))) == n
  {
    var s := NatToString(n);
    ParseNatToString(n);
    if n < 10 {
      var p := PadStart2(s);
      assert p == "0" + s;
      assert p[..1] == "0";
      assert ParseDigits(p) == ParseDigits(p[..1]) * 10 + ParseDigits(s);
    }
  }

  /**
   * `` `${year}-${month}-${day}` `` with the month counted from 1, and month
   * and day padded to two digits. The year is not padded.
   */
  function FormatLocalDate(d: CalendarDate): string
  {
    IntToString(d.year) + "-" + PadStart2(IntToString(d.monthIndex + 1)) + "-" + PadStart2(IntToString(d.day))
  }

  predicate AllDigits(s: string)
  {
    forall i :: 0 <= i < |s| ==> IsDigit(s[i])
  }

  /** Reads `Y-MM-DD` (any number of year digits) back into calendar fields. */
  function ParseLocalDate(s: string): Option<CalendarDate>
  {
    if |s| < 7 || s[|s| - 6] != '-' || s[|s| - 3] != '-' then None
    else
      var y, m, d := s[..|s| - 6], s[|s| - 5..|s| - 3], s[|s| - 2..];
      if AllDigits(y) && AllDigits(m) && AllDigits(d) then
        Some(CalendarDate(ParseDigits(y), ParseDigits(m) - 1, ParseDigits(d)))
      else None
  }

  /** Where the pieces of a joined `Y-MM-DD` text sit, counted from its end. */
  lemma JoinedPieces(y: string, m: string, d: string)
    requires |m| == 2 && |d| == 2
    ensures var s := y + "-" + m + "-" + d;
      |s| == |y| + 6 && s[|s| - 6] == '-' && s[|s| - 3] == '-' &&
      s[..|s| - 6] == y && s[|s| - 5..|s| - 3] == m && s[|s| - 2..] == d
  {
    var a := y + "-";
    var b := a + m;
    var c := b + "-";
    var s := c + d;
    assert s[..|c|] == c && s[|c|..] == d;
    assert c[..|b|] == b && b[..|a|] == a && b[|a|..] == m;
    assert a[..|y|] == y;
  }

  /** A text with hyphens six and three places from its end and digit groups between them parses by those groups. */
  lemma ParseByPieces(s: string, y: string, m: string, d: string)
    requires |s| >= 7 && s[|s| - 6] == '-' && s[|s| - 3] == '-'
    requires s[..|s| - 6] == y && s[|s| - 5..|s| - 3] == m && s[|s| - 2..] == d
    requires AllDigits(y) && AllDigits(m) && AllDigits(d)
    ensures ParseLocalDate(s) == Some(CalendarDate(ParseDigits(y), ParseDigits(m) - 1, ParseDigits(d)))
  {
  }

  /** How `ParseLocalDate` splits a joined `Y-MM-DD` text. */
  lemma ParseJoined(y: string, m: string, d: string)
    requires AllDigits(y) && AllDigits(m) && AllDigits(d) && |y| >= 1 && |m| == 2 && |d| == 2
    ensures ParseLocalDate(y + "-" + m + "-" + d) ==
      Some(CalendarDate(ParseDigits(y), ParseDigits(m) - 1, ParseDigits(d)))
  {
    JoinedPieces(y, m, d);
    ParseByPieces(y + "-" + m + "-" + d, y, m, d);
  }

  /** The sent text names the picked date: reading it back gives the same calendar fields. */
  lemma FormatLocalDateRoundTrip(d: CalendarDate)
    requires ValidDate(d) && d.year >= 0
    ensures ParseLocalDate(FormatLocalDate(d)) == Some(d)
  {
    TwoDigits(d.monthIndex + 1);
    TwoDigits(d.day);
    ParseNatToString(d.year);
    ParseJoined(NatToString(d.year), PadStart2(NatToString(d.monthIndex + 1)), PadStart2(NatToString(d.day)));
  }

  /**
   * For a four-digit year the text is the extended calendar-date format of
   * ISO 8601 (section 4.1.2.2): `YYYY-MM-DD`, ten characters, the hyphens at
   * positions 4 and 7 and digits elsewhere.
   */
  lemma FormatLocalDateIsIso(d: CalendarDate)
    requires ValidDate(d) && 1000 <= d.year <= 9999
    ensures var s := FormatLocalDate(d);
      |s| == 10 && s[4] == '-' && s[7] == '-' &&
      forall i :: 0 <= i < 10 && i != 4 && i != 7 ==> IsDigit(s[i])
  {
    TwoDigits(d.monthIndex + 1);
    TwoDigits(d.day);
    var y := NatToString(d.year);
    var m := PadStart2(NatToString(d.monthIndex + 1));
    var dd := PadStart2(NatToString(d.day));
    var s := FormatLocalDate(d);
    assert s == y + "-" + m + "-" + dd;
    forall i | 0 <= i < 10 && i != 4 && i != 7 ensures IsDigit(s[i]) {
      if i < 4 {
        assert s[i] == y[i];
      } else if i < 7 {
        assert s[i] == m[i - 5];
      } else {
        assert s[i] == dd[i - 8];
      }
    }
  }

  /** The picked 10 March 2024 is sent as "2024-03-10". */
  lemma FormatMarchTenth()
    ensures FormatLocalDate(CalendarDate(2024, 2, 10)) == "2024-03-10"
  {
    assert NatToString(2024) == "2024" by {
      assert NatToString(2) == "2";
      assert NatToString(20) == "20";
      assert NatToString(202) == "202";
    }
    assert NatToString(3) == "3";
    assert NatToString(10) == "10";
  }

  class TodoFormState {
    var task: string
    var priority: Priority
    var status: Status
    var dueDate: Option<CalendarDate>
    var taskError: bool

    constructor ()
      ensures task == "" && priority == Medium && status == Pending && dueDate == None && !taskError
    {
      task := "";
      priority := Medium;
      status := Pending;
      dueDate := None;
      taskError := false;
    }

    /** The effect on `[initialData, open]`: copy the edited todo, or reset for a new one. */
    method Reset(initialData: Option<Todo>, parseDate: string -> CalendarDate)
      modifies this`task, this`priority, this`status, this`dueDate
      ensures initialData.Some? ==>
        && task == initialData.value.task
        && priority == initialData.value.priority
        && status == initialData.value.status
        && dueDate == (var due := initialData.value.dueDate;
                       if due.Some? && due.value != "" then Some(parseDate(due.value)) else None)
      ensures initialData.None? ==> task == "" && priority == Medium && status == Pending && dueDate == None
    {
      if initialData.Some? {
        var t := initialData.value;
        task := t.task;
        priority := t.priority;
        status := t.status;
        dueDate := if t.dueDate.Some? && t.dueDate.value != "" then Some(parseDate(t.dueDate.value)) else None;
      } else {
        task := "";
        priority := Medium;
        status := Pending;
        dueDate := None;
      }
    }

    /** Typing in the `task` field: a non-blank value clears the error. */
    method ChangeTask(value: string)
      modifies this`task, this`taskError
      ensures task == value
      ensures Trim(value) != "" ==> !taskError
      ensures Trim(value) == "" ==> taskError == old(taskError)
    {
      task := value;
      if Trim(value) != "" {
        taskError := false;
      }
    }

    method SetPriority(p: Priority)
      modifies this`priority
      ensures priority == p
    {
      priority := p;
    }

    method SetStatus(s: Status)
      modifies this`status
      ensures status == s
    {
      status := s;
    }

    method SetDueDate(d: Option<CalendarDate>)
      modifies this`dueDate
      ensures dueDate == d
    {
      dueDate := d;
    }

    /**
     * `handleSubmit`: a task of only whitespace is refused and flagged;
     * otherwise the form's values go to `onSubmit` (returned as `submitted`)
     * and the dialog closes.
     */
    method HandleSubmit() returns (submitted: Option<TodoInput>)
      modifies this`taskError
      ensures submitted.None? <==> AllWhitespace(task)
      ensures submitted.None? ==> taskError
      ensures submitted.Some? ==>
        taskError == old(taskError) &&
        submitted.value == TodoInput(task, priority, status,
          if dueDate.Some? then Some(FormatLocalDate(dueDate.value)) else None)
    {
      TrimEmptyIffAllWhitespace(task);
      if Trim(task) == "" {
        taskError := true;
        return None;
      }
      var formatted := if dueDate.Some? then Some(FormatLocalDate(dueDate.value)) else None;
      submitted := Some(TodoInput(task, priority, status, formatted));
    }
  }
}
