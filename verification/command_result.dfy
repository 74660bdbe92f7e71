/**
 * The result of an SSM command: an immutable record of the command ID, its status and
 * its two output streams, any of which may be null.
 */
module CommandResults {
  import opened Values
  import opened JavaText

  /** All four fields are final: the record never changes after construction. */
  datatype CommandResult = CommandResult(
    commandId: Option<string>,
    status: Option<string>,
    standardOutput: Option<string>,
    standardError: Option<string>)
  {
    /** `"Success".equals(status)`: an exact, case-sensitive match, false for a null status. */
    predicate IsSuccess()
      ensures IsSuccess() <==> status == Some("Success")
    {
      status.Some? && status.value == "Success"
    }

    /** `String.format("CommandResult{id='%s', status='%s'}", commandId, status)` */
    function ToString(): (r: string)
      ensures StartsWith(r, TO_STRING_PREFIX + NullText(commandId) + TO_STRING_MIDDLE)
      ensures EndsWith(r, NullText(status) + TO_STRING_SUFFIX)
    {
      var head := TO_STRING_PREFIX + NullText(commandId) + TO_STRING_MIDDLE;
      var tail := NullText(status) + TO_STRING_SUFFIX;
      ConcatAssoc(head, NullText(status), TO_STRING_SUFFIX);
      var r := head + tail;
      assert r[..|head|] == head && r[|head|..] == tail;
      r
    }
  }

  const TO_STRING_PREFIX: string := "CommandResult{id='"
  const TO_STRING_MIDDLE: string := "', status='"
  const TO_STRING_SUFFIX: string := "'}"

  /**
   * Reads the ID and the status back from a `toString()` text: the ID runs from the
   * prefix to the next quote, and the status from ", status='" to the closing "'}".
   */
  function ParseToString(text: string): (r: Option<(string, string)>)
    ensures r.Some? ==> '\'' !in r.value.0
  {
    if !StartsWith(text, TO_STRING_PREFIX) then None
    else match SplitAtFirst(text[|TO_STRING_PREFIX|..], '\'')
      case None => None
      case Some((id, after)) =>
        var rest := ['\''] + after;
        if |rest| >= |TO_STRING_MIDDLE| + |TO_STRING_SUFFIX| && StartsWith(rest, TO_STRING_MIDDLE)
           && EndsWith(rest, TO_STRING_SUFFIX)
        then Some((id, rest[|TO_STRING_MIDDLE|..|rest| - |TO_STRING_SUFFIX|]))
        else None
  }

  /**
   * The cuts `ParseToString` makes, on any prefix, ID, separator starting with a quote,
   * status and suffix.
   */
  lemma FiveParts(prefix: string, id: string, middle: string, status: string, suffix: string)
    requires '\'' !in id && |middle| >= 1 && middle[0] == '\''
    ensures var text := prefix + id + middle + status + suffix;
            && text[..|prefix|] == prefix
            && text[|prefix|..] == id + ['\''] + (middle[1..] + status + suffix)
    ensures var rest := ['\''] + (middle[1..] + status + suffix);
            && rest == middle + status + suffix
            && rest[..|middle|] == middle
            && rest[|rest| - |suffix|..] == suffix
            && rest[|middle|..|rest| - |suffix|] == status
  {
    AppendFour(prefix, id, middle, status, suffix);
    assert middle == ['\''] + middle[1..];
    AppendFour(id, ['\''], middle[1..], status, suffix);
    AppendFour([], ['\''], middle[1..], status, suffix);
    AppendFour([], middle, status, suffix, []);
    ConcatAssoc(['\''], middle[1..] + status, suffix);
  }

  /**
   * The text keeps both fields: for an ID without a quote, the ID and the status
   * (each "null" when absent) read back from it. Any status reads back, quotes included.
   */
  lemma ToStringReadBack(result: CommandResult)
    requires '\'' !in NullText(result.commandId)
    ensures ParseToString(result.ToString()) == Some((NullText(result.commandId), NullText(result.status)))
  {
    var id := NullText(result.commandId);
    var status := NullText(result.status);
    var after := TO_STRING_MIDDLE[1..] + status + TO_STRING_SUFFIX;
    FiveParts(TO_STRING_PREFIX, id, TO_STRING_MIDDLE, status, TO_STRING_SUFFIX);
    var text := TO_STRING_PREFIX + id + TO_STRING_MIDDLE + status + TO_STRING_SUFFIX;
    ConcatAssoc(TO_STRING_PREFIX + id + TO_STRING_MIDDLE, status, TO_STRING_SUFFIX);
    assert result.ToString() == text;
    assert StartsWith(text, TO_STRING_PREFIX);
    SplitAtFirstOf(id, '\'', after);
    assert SplitAtFirst(text[|TO_STRING_PREFIX|..], '\'') == Some((id, after));
    var rest := ['\''] + after;
    assert StartsWith(rest, TO_STRING_MIDDLE) && EndsWith(rest, TO_STRING_SUFFIX);
  }
}
