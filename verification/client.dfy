/** The browser component's submit handler and history click, as transitions of
    the three pieces of state they touch: the displayed image, the recent-results
    history and the loading flag. The relay's answer is an input.
 */
module Client {
  import opened Json
  import opened Text

  /** How many recent results the history keeps. */
  const HistoryCap := 5
  const ImagePrefix := "data:image/"
  const PngPrefix := "data:image/png;base64,"

  /** One history item: `id` is the submit time, `prompt` the text as typed. */
  datatype Entry = Entry(id: int, image: string, prompt: string, style: string)

  datatype State = State(resultImage: Option<string>, history: seq<Entry>, loading: bool)

  /** The state the component mounts with. */
  const Initial := State(None, [], false)

  /** What the call to the relay produced: an exception (the fetch failed or the
      body was not JSON), or a response with its `ok` flag and parsed body. */
  datatype Reply = Failed | Received(ok: bool, data: Json)

  /** The alert the user sees: none, the blank-prompt alert, the relay's error
      (`None` for "No image received"), or the network-error alert. */
  datatype Notice = Quiet | BlankPrompt | RelayError(error: Option<Json>) | NetworkError

  /** The result of one submit: the new state, the prompt sent to the relay if a
      request was made, and the alert shown. */
  datatype Step = Step(state: State, sent: Option<string>, notice: Notice)

  function Min(a: int, b: int): int { if a <= b then a else b }

  /** The prompt the relay receives: the text as typed, then the style label. */
  function EnhancedPrompt(prompt: string, style: string): (r: string)
    ensures |r| == |prompt| + |style| + 8
    ensures StartsWith(r, prompt)
    ensures r[|prompt|..] == ", " + style + " style"
  {
    prompt + ", " + style + " style"
  }

  /** The typed prompt recovered from the enhanced one. */
  function TypedPrompt(enhanced: string, style: string): string
    requires |enhanced| >= |style| + 8
  {
    enhanced[..|enhanced| - |style| - 8]
  }

  /** The enhanced prompt keeps the typed text untouched: it can be read back,
      and two different prompts never give the same request. */
  lemma EnhancedPromptRoundTrip(prompt: string, style: string)
    ensures TypedPrompt(EnhancedPrompt(prompt, style), style) == prompt
    ensures EnhancedPrompt(prompt, style) != []
  {
  }

  /** The relay's `output` as something an `<img>` can show: a `data:image/` URI
      is kept, anything else is taken as bare base64 PNG data. */
  function NormaliseImage(output: string): (r: string)
    ensures StartsWith(r, ImagePrefix)
    ensures StartsWith(output, ImagePrefix) ==> r == output
    ensures !StartsWith(output, ImagePrefix) ==> r == PngPrefix + output
  {
    if StartsWith(output, ImagePrefix) then output
    else
      assert (PngPrefix + output)[..|ImagePrefix|] == ImagePrefix;
      PngPrefix + output
  }

  /** Normalising an already normalised image changes nothing, and normalisation
      only ever adds a prefix. */
  lemma NormaliseIdempotent(output: string)
    ensures NormaliseImage(NormaliseImage(output)) == NormaliseImage(output)
    ensures var r := NormaliseImage(output); r[|r| - |output|..] == output
  {
  }

  /** The history after a success: the new entry first, then the previous
      entries, most recent first, cut to the cap. */
  function PushHistory(entry: Entry, prev: seq<Entry>): (r: seq<Entry>)
    ensures |r| == Min(|prev| + 1, HistoryCap)
    ensures r[0] == entry && r[1..] == prev[..|r| - 1]
  {
    [entry] + prev[..Min(|prev|, HistoryCap - 1)]
  }

  /** `s[..n]` where `s` may be shorter than `n`. */
  function Take<T>(s: seq<T>, n: nat): (r: seq<T>)
    ensures |r| == Min(|s|, n) && r == s[..|r|]
  {
    if |s| <= n then s else s[..n]
  }

  function Reversed<T>(s: seq<T>): (r: seq<T>)
    ensures |r| == |s|
    ensures forall i :: 0 <= i < |s| ==> r[i] == s[|s| - 1 - i]
    decreases |s|
  {
    if s == [] then [] else [s[|s| - 1]] + Reversed(s[..|s| - 1])
  }

  /** The history after the successful submits `entries`, oldest first. */
  function PushAll(history: seq<Entry>, entries: seq<Entry>): seq<Entry>
    decreases |entries|
  {
    if entries == [] then history
    else PushHistory(entries[|entries| - 1], PushAll(history, entries[..|entries| - 1]))
  }

  /** Pushing onto a history already cut to the cap is cutting after prepending. */
  lemma PushTake(e: Entry, tail: seq<Entry>)
    ensures PushHistory(e, Take(tail, HistoryCap)) == Take([e] + tail, HistoryCap)
  {
  }

  /** Pushing is a bounded most-recent-first queue: after any run of successes the
      history is the newest entries (newest first) followed by the old history,
      cut to the cap. */
  lemma {:induction false} PushAllKeepsMostRecent(history: seq<Entry>, entries: seq<Entry>)
    requires |history| <= HistoryCap
    ensures PushAll(history, entries) == Take(Reversed(entries) + history, HistoryCap)
    decreases |entries|
  {
    if entries != [] {
      var e := entries[|entries| - 1];
      var rest := entries[..|entries| - 1];
      PushAllKeepsMostRecent(history, rest);
      var tail := Reversed(rest) + history;
      assert Reversed(entries) + history == [e] + tail;
      PushTake(e, tail);
    }
  }

  /** After six successful submits from the empty history, the first is gone and
      the other five remain, newest first. */
  lemma SixSubmitsEvictOldest(entries: seq<Entry>)
    requires |entries| == 6
    ensures PushAll([], entries) == [entries[5], entries[4], entries[3], entries[2], entries[1]]
  {
    PushAllKeepsMostRecent([], entries);
    assert Reversed(entries) + [] == Reversed(entries);
  }

  /** `data?.error`, as the alert reads it, when it is truthy. */
  function ErrorOf(data: Json): (r: Option<Json>)
    ensures r.None? <==> data.JNull? || Falsy(Property(data, "error"))
    ensures r.Some? ==> !data.JNull? && r == Property(data, "error") && !Falsy(r)
  {
    if data.JNull? then None
    else
      var e := Property(data, "error");
      if Falsy(e) then None else e
  }

  /** Whether building the alert text `"Error: " + error` throws: only a truthy
      `error` that is an array or object can, and the throw ends in the catch
      block's network alert. */
  predicate AlertThrows(data: Json, conv: Conversion) {
    var e := ErrorOf(data);
    e.Some? && ToText(e.value, conv).None?
  }

  /** What the success branch makes of `data.output` in an ok reply: an image
      string, a falsy output (reported like a relay error), or a read that throws
      (a `null` body, or a truthy output without `startsWith`). */
  datatype Read = Shown(output: string) | Missing | Throws

  function ReadOutput(data: Json): (r: Read)
    ensures r.Shown? <==>
              !data.JNull? && (var o := Property(data, "output"); o.Some? && o.value.JString? && o.value.s != [])
    ensures r.Shown? ==> Property(data, "output") == Some(JString(r.output))
    ensures r.Missing? <==> !data.JNull? && Falsy(Property(data, "output"))
  {
    if data.JNull? then Throws
    else
      var output := Property(data, "output");
      if Falsy(output) then Missing
      else if output.value.JString? then Shown(output.value.s)
      else Throws
  }

  /** `handleSubmit`, given the typed prompt, the selected style, what the relay
      call produced, the current time and the browser's string conversion. */
  function Submit(s: State, prompt: string, style: string, reply: Reply, now: int, conv: Conversion): (o: Step)
    ensures Blank(prompt) ==> o == Step(s, None, BlankPrompt)
    ensures !Blank(prompt) ==> o.sent == Some(EnhancedPrompt(prompt, style)) && !o.state.loading
    ensures o.notice != Quiet ==>
              o.state.resultImage == s.resultImage && o.state.history == s.history
    ensures o.notice == Quiet <==>
              !Blank(prompt) && reply.Received? && reply.ok && ReadOutput(reply.data).Shown?
    ensures o.notice == Quiet ==>
              var image := NormaliseImage(ReadOutput(reply.data).output);
              && o.state.resultImage == Some(image)
              && o.state.history == PushHistory(Entry(now, image, prompt, style), s.history)
    ensures !Blank(prompt) && reply.Failed? ==> o.notice == NetworkError
    ensures !Blank(prompt) && reply.Received? && (!reply.ok || ReadOutput(reply.data).Missing?) ==>
              o.notice == if AlertThrows(reply.data, conv) then NetworkError else RelayError(ErrorOf(reply.data))
    ensures !Blank(prompt) && reply.Received? && reply.ok && ReadOutput(reply.data).Throws? ==>
              o.notice == NetworkError
  {
    if Trim(prompt) == [] then Step(s, None, BlankPrompt)
    else
      var sent := Some(EnhancedPrompt(prompt, style));
      var settled := s.(loading := false);
      match reply
      case Failed => Step(settled, sent, NetworkError)
      case Received(ok, data) =>
        var alert := if AlertThrows(data, conv) then NetworkError else RelayError(ErrorOf(data));
        if !ok then Step(settled, sent, alert)
        else
          match ReadOutput(data)
          case Missing => Step(settled, sent, alert)
          case Throws => Step(settled, sent, NetworkError)
          case Shown(output) =>
            var image := NormaliseImage(output);
            Step(State(Some(image), PushHistory(Entry(now, image, prompt, style), s.history), false), sent, Quiet)
  }

  /** A blank prompt makes no request, so the relay's answer plays no part. */
  lemma BlankSubmitMakesNoRequest(s: State, prompt: string, style: string, r1: Reply, r2: Reply, n1: int, n2: int,
                                  conv: Conversion)
    requires Trim(prompt) == []
    ensures Submit(s, prompt, style, r1, n1, conv) == Submit(s, prompt, style, r2, n2, conv)
    ensures Submit(s, prompt, style, r1, n1, conv).sent.None?
  {
  }

  /** Clicking a history item shows its image and changes nothing else. */
  function Select(s: State, item: Entry): (r: State)
    requires item in s.history
    ensures r.resultImage == Some(item.image)
    ensures r.history == s.history && r.loading == s.loading
  {
    s.(resultImage := Some(item.image))
  }

  /** What the component keeps true: the history is within its cap and every
      image it shows or lists is a `data:image/` URI. */
  predicate Good(s: State) {
    && |s.history| <= HistoryCap
    && (s.resultImage.Some? ==> StartsWith(s.resultImage.value, ImagePrefix))
    && forall i :: 0 <= i < |s.history| ==> StartsWith(s.history[i].image, ImagePrefix)
  }

  lemma InitialGood()
    ensures Good(Initial)
  {
  }

  /** Every submit, whatever its outcome, keeps the component's invariant. */
  lemma SubmitKeepsGood(s: State, prompt: string, style: string, reply: Reply, now: int, conv: Conversion)
    requires Good(s)
    ensures Good(Submit(s, prompt, style, reply, now, conv).state)
  {
  }

  /** Clicking a history item keeps the component's invariant. */
  lemma SelectKeepsGood(s: State, item: Entry)
    requires Good(s) && item in s.history
    ensures Good(Select(s, item))
  {
  }
}
