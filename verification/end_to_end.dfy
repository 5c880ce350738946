/** The relay and the browser component composed: the relay's reply, serialised
    as JSON and read back by the component, drives the submit transition.
 */
module EndToEnd {
  import opened Json
  import opened Text
  import Relay
  import Client

  /** What the component's `fetch` and `res.json()` make of a relay reply. */
  function Wire(r: Relay.Reply): (c: Client.Reply)
    ensures c.Received? && c.data.JObject?
    ensures c.ok <==> Relay.IsOk(r.status)
  {
    Client.Received(Relay.IsOk(r.status), r.body.ToJson())
  }

  /** The request one submit makes, handled by the relay. */
  function Roundtrip(s: Client.State, prompt: string, style: string, token: Option<string>,
                     upstream: Relay.Upstream, lib: Relay.Library, now: int): (o: Client.Step)
    ensures Blank(prompt) ==> o == Client.Step(s, None, Client.BlankPrompt)
    ensures !Blank(prompt) ==> o.sent == Some(Client.EnhancedPrompt(prompt, style))
  {
    var enhanced := Client.EnhancedPrompt(prompt, style);
    var reply := Relay.Transform(Some(JString(enhanced)), token, upstream, lib);
    Client.Submit(s, prompt, style, Wire(reply), now, lib.convert)
  }

  /** The component never sends a prompt the relay turns away as missing. */
  lemma EnhancedPromptPassesRelayCheck(prompt: string, style: string, token: Option<string>,
                                       upstream: Relay.Upstream, lib: Relay.Library)
    ensures Relay.Transform(Some(JString(Client.EnhancedPrompt(prompt, style))), token, upstream, lib)
            != Relay.Fail(400, Relay.PromptRequired)
  {
    Client.EnhancedPromptRoundTrip(prompt, style);
  }

  /** When the provider returns an image, the component shows exactly the relay's
      data URI (its normalisation leaves it alone) and records it in the history
      together with the prompt as typed, not the enhanced one. */
  lemma ImageReachesScreen(s: Client.State, prompt: string, style: string, token: Option<string>,
                           upstream: Relay.Upstream, lib: Relay.Library, now: int)
    requires !Blank(prompt) && Relay.Configured(token)
    requires upstream.Answered? && Relay.IsOk(upstream.status) && Relay.IsImageType(upstream.contentType)
    ensures var o := Roundtrip(s, prompt, style, token, upstream, lib, now);
            var uri := Relay.DataUri(upstream.contentType.value, lib.base64(upstream.body));
            && o.notice == Client.Quiet
            && o.state.resultImage == Some(uri)
            && o.state.history == Client.PushHistory(Client.Entry(now, uri, prompt, style), s.history)
            && !o.state.loading
  {
    var enhanced := Client.EnhancedPrompt(prompt, style);
    Client.EnhancedPromptRoundTrip(prompt, style);
    var r := Relay.Transform(Some(JString(enhanced)), token, upstream, lib);
    Relay.ImageIsDataUri(Some(JString(enhanced)), token, upstream, lib);
    Relay.ToJsonReadsBack(r.body);
  }

  /** Every error the relay reports leaves the displayed image and the history as
      they were, clears the loading flag, and alerts the relay's error message. */
  lemma RelayErrorLeavesScreen(s: Client.State, prompt: string, style: string, token: Option<string>,
                               upstream: Relay.Upstream, lib: Relay.Library, now: int)
    requires !Blank(prompt)
    requires Relay.Transform(Some(JString(Client.EnhancedPrompt(prompt, style))), token, upstream, lib).body.Failure?
    ensures var o := Roundtrip(s, prompt, style, token, upstream, lib, now);
            var r := Relay.Transform(Some(JString(Client.EnhancedPrompt(prompt, style))), token, upstream, lib);
            && o.state == s.(loading := false)
            && o.notice == Client.RelayError(Some(JString(r.body.error)))
  {
    var enhanced := Client.EnhancedPrompt(prompt, style);
    var r := Relay.Transform(Some(JString(enhanced)), token, upstream, lib);
    Relay.SuccessIffOkStatus(Some(JString(enhanced)), token, upstream, lib);
    var c := Wire(r);
    assert !c.ok;
    Relay.ToJsonReadsBack(r.body);
    assert Client.ErrorOf(c.data) == Some(JString(r.body.error));
    assert Roundtrip(s, prompt, style, token, upstream, lib, now) == Client.Submit(s, prompt, style, c, now, lib.convert);
  }
}
