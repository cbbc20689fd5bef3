/** The part of a chat turn between the provider stream and the user
    (wispr_bot/routers/chats.py:352-423): the reduction of the cumulative
    stream to throttled progress edits and one final text, and the delivery
    of that text, in one piece or in slices. Telegram calls are recorded as
    output events rather than performed. */
module Render {
  import opened Text
  import opened ChatModel
  import Provider
  import opened Outbox

  /** A progress edit is attempted on every this-many-th increment. */
  const UpdateInterval := 20
  /** Telegram's limit on one message body. */
  const MessageLimit := 4096
  /** The slice length used when a final text is over the limit. */
  const SliceLength := 4000
  const ProgressSuffix := " ⏳"

  /** Index of the first increment carrying the error marker, or the length
      when there is none. */
  function FirstError(incs: seq<string>): (n: nat)
    ensures n <= |incs|
    ensures forall k :: 0 <= k < n ==> !IsErrorText(incs[k])
    ensures n < |incs| ==> IsErrorText(incs[n])
  {
    if |incs| == 0 then 0
    else if IsErrorText(incs[0]) then 0
    else 1 + FirstError(incs[1..])
  }

  /** The result a stream reduces to: the first marked increment if there is
      one, otherwise the last increment, and `""` for an empty stream. */
  function StreamResult(incs: seq<string>): string {
    var cut := FirstError(incs);
    if cut < |incs| then incs[cut]
    else if |incs| == 0 then ""
    else incs[|incs| - 1]
  }

  /** `e` is the edit made for the increment at index `j`: its counter value
      `j + 1` is a multiple of the interval, the increment fits in one
      message, and the edit is the increment followed by the progress suffix. */
  predicate IsProgressEdit(incs: seq<string>, j: nat, e: string) {
    j < |incs| && (j + 1) % UpdateInterval == 0 && |incs[j]| <= MessageLimit && e == incs[j] + ProgressSuffix
  }

  /** The progress edits attempted for the first `n` increments, the k-th
      increment (counting from 1) being the k-th counter value. */
  function ProgressEdits(incs: seq<string>, n: nat): (edits: seq<string>)
    requires n <= |incs|
    ensures UpdateInterval * |edits| <= n
  {
    if n == 0 then []
    else
      var chunk := incs[n - 1];
      var prev := ProgressEdits(incs, n - 1);
      if n % UpdateInterval == 0 && |chunk| <= MessageLimit then
        prev + [chunk + ProgressSuffix]
      else prev
  }

  /** `e` is the progress edit of one of the first `n` increments. */
  ghost predicate EditOfOneOf(incs: seq<string>, n: nat, e: string) {
    exists j :: 0 <= j < n && IsProgressEdit(incs, j, e)
  }

  /** Every attempted edit is the progress edit of some increment before `n`. */
  lemma {:induction false} ProgressEditsSound(incs: seq<string>, n: nat)
    requires n <= |incs|
    ensures forall k :: 0 <= k < |ProgressEdits(incs, n)| ==> EditOfOneOf(incs, n, ProgressEdits(incs, n)[k])
  {
    if n > 0 {
      ProgressEditsSound(incs, n - 1);
      var prev := ProgressEdits(incs, n - 1);
      var edits := ProgressEdits(incs, n);
      forall k | 0 <= k < |edits| ensures EditOfOneOf(incs, n, edits[k]) {
        if k < |prev| {
          assert EditOfOneOf(incs, n - 1, prev[k]);
          var j :| 0 <= j < n - 1 && IsProgressEdit(incs, j, prev[k]);
          assert edits[k] == prev[k];
          assert IsProgressEdit(incs, j, edits[k]);
        } else {
          assert IsProgressEdit(incs, n - 1, edits[k]);
        }
      }
    }
  }

  /** An increment whose counter value is a multiple of the interval and
      that fits in one message is always edited in, in its turn. */
  lemma {:induction false} ProgressEditsComplete(incs: seq<string>, n: nat, j: nat)
    requires j < n <= |incs|
    requires (j + 1) % UpdateInterval == 0 && |incs[j]| <= MessageLimit
    ensures incs[j] + ProgressSuffix in ProgressEdits(incs, n)
  {
    if j < n - 1 {
      ProgressEditsComplete(incs, n - 1, j);
    }
  }

  /** The `async for` loop over the stream: returns the final text it keeps
      and the in-place edits it attempts. An edit that Telegram rejects is
      swallowed, so attempts are all that matter to the rest of the turn. */
  method ReduceStream(incs: seq<string>) returns (final: string, edits: seq<string>)
    ensures final == StreamResult(incs)
    ensures edits == ProgressEdits(incs, FirstError(incs))
    ensures UpdateInterval * |edits| <= FirstError(incs)
  {
    final := "";
    edits := [];
    var counter := 0;
    var i := 0;
    while i < |incs|
      invariant i <= FirstError(incs)
      invariant counter == i
      invariant edits == ProgressEdits(incs, i)
      invariant final == if i == 0 then "" else incs[i - 1]
    {
      var chunk := incs[i];
      if IsErrorText(chunk) {
        assert i == FirstError(incs);
        final := chunk;
        break;
      }
      counter := counter + 1;
      if counter % UpdateInterval == 0 {
        if |chunk| <= MessageLimit {
          edits := edits + [chunk + ProgressSuffix];
        }
      }
      assert edits == ProgressEdits(incs, i + 1);
      final := chunk;
      i := i + 1;
    }
  }

  /** An empty result is replaced by the empty-answer notice before it is
      stored or shown. */
  function FinalText(result: string): (t: string)
    ensures t != ""
    ensures result != "" ==> t == result
  {
    if result == "" then Provider.EmptyAnswerText else result
  }

  /** The `range(0, len(text), 4000)` slicing of an over-long answer. */
  method Slices(text: string) returns (parts: seq<string>)
    ensures Concat(parts) == text
    ensures SliceLength * |parts| - SliceLength < |text| <= SliceLength * |parts|
    ensures forall k :: 0 <= k < |parts| ==> 0 < |parts[k]| <= SliceLength
    ensures forall k :: 0 <= k < |parts| ==>
      parts[k] == text[SliceLength * k .. if SliceLength * k + SliceLength <= |text| then SliceLength * k + SliceLength else |text|]
  {
    parts := [];
    var i := 0;
    while i < |text|
      invariant i == SliceLength * |parts|
      invariant i - SliceLength < |text|
      invariant Concat(parts) == text[..if i <= |text| then i else |text|]
      invariant forall k :: 0 <= k < |parts| ==> 0 < |parts[k]| <= SliceLength
      invariant forall k :: 0 <= k < |parts| ==>
        parts[k] == text[SliceLength * k .. if SliceLength * k + SliceLength <= |text| then SliceLength * k + SliceLength else |text|]
    {
      var end := if i + SliceLength <= |text| then i + SliceLength else |text|;
      var part := text[i..end];
      assert text[..end] == text[..i] + part;
      parts := parts + [part];
      assert parts[..|parts| - 1] == parts[..|parts| - 1];
      i := i + SliceLength;
    }
  }

  /** What delivering `final` sends: one in-place edit when it fits in a
      message; otherwise the placeholder's deletion and at least two replies,
      none longer than a slice, that together spell `final`. */
  predicate Delivers(final: string, outs: seq<Out>) {
    && (|final| <= MessageLimit ==> outs == [EditPlaceholder(final)])
    && (|final| > MessageLimit ==>
          && |outs| >= 3 && outs[0] == DeletePlaceholder
          && (forall k :: 1 <= k < |outs| ==> outs[k].Reply? && 0 < |outs[k].text| <= SliceLength)
          && Concat(ReplyTexts(outs[1..])) == final)
  }

  /** Final delivery: one in-place edit when the text fits, otherwise the
      placeholder is deleted and the slices are sent as new messages. */
  method Deliver(final: string) returns (outs: seq<Out>)
    ensures Delivers(final, outs)
  {
    if |final| > MessageLimit {
      var parts := Slices(final);
      SlicesDeliver(final, parts);
      outs := [DeletePlaceholder] + AsReplies(parts);
    } else {
      outs := [EditPlaceholder(final)];
    }
  }

  /** Slices of an over-long text, sent as replies after the placeholder's
      deletion, deliver it. */
  lemma SlicesDeliver(final: string, parts: seq<string>)
    requires |final| > MessageLimit
    requires Concat(parts) == final
    requires SliceLength * |parts| - SliceLength < |final| <= SliceLength * |parts|
    requires forall k :: 0 <= k < |parts| ==> 0 < |parts[k]| <= SliceLength
    ensures Delivers(final, [DeletePlaceholder] + AsReplies(parts))
  {
    var replies := AsReplies(parts);
    var outs := [DeletePlaceholder] + replies;
    assert |parts| >= 2;
    assert outs[1..] == replies;
    forall k | 1 <= k < |outs|
      ensures outs[k].Reply? && 0 < |outs[k].text| <= SliceLength
    {
      assert outs[k] == Reply(parts[k - 1]);
    }
  }

  function AsReplies(parts: seq<string>): (outs: seq<Out>)
    ensures |outs| == |parts|
    ensures forall k :: 0 <= k < |parts| ==> outs[k] == Reply(parts[k])
    ensures ReplyTexts(outs) == parts
  {
    if |parts| == 0 then [] else [Reply(parts[0])] + AsReplies(parts[1..])
  }

  /** The texts of the replies among `outs`, in order. */
  function ReplyTexts(outs: seq<Out>): seq<string> {
    if |outs| == 0 then []
    else (if outs[0].Reply? then [outs[0].text] else []) + ReplyTexts(outs[1..])
  }
}
