/** The browser page as the outbound path sees it: an append-only log of
    the actions performed on the chat input. */
module Transport {

  datatype Action = Fill(text: string) | PressEnter

  class Page {
    /** Every action performed on the page, oldest first. */
    var log: seq<Action>

    constructor ()
      ensures log == []
    {
      log := [];
    }

    /** page.fill(selectors.chatInput, text) */
    method Fill(text: string)
      modifies this
      ensures log == old(log) + [Action.Fill(text)]
    {
      log := log + [Action.Fill(text)];
    }

    /** page.keyboard.press('Enter') */
    method PressEnter()
      modifies this
      ensures log == old(log) + [Action.PressEnter]
    {
      log := log + [Action.PressEnter];
    }
  }

  /** The actions that sending messages with these texts performs, in order. */
  function Rendering(texts: seq<string>): (r: seq<Action>)
    ensures |r| == 2 * |texts|
  {
    if texts == [] then [] else [Fill(texts[0]), PressEnter] + Rendering(texts[1..])
  }

  /** The texts typed into the chat input, in order. */
  function FilledTexts(log: seq<Action>): (r: seq<string>)
  {
    if log == [] then []
    else if log[0].Fill? then [log[0].text] + FilledTexts(log[1..])
    else FilledTexts(log[1..])
  }

  /** Message k is filled at position 2k and submitted at 2k + 1. */
  lemma {:induction false} RenderingAt(texts: seq<string>, k: nat)
    requires k < |texts|
    ensures Rendering(texts)[2 * k] == Fill(texts[k])
    ensures Rendering(texts)[2 * k + 1] == PressEnter
  {
    if k > 0 {
      RenderingAt(texts[1..], k - 1);
    }
  }

  /** Sending one more message appends its two actions. */
  lemma {:induction false} RenderingSnoc(texts: seq<string>, t: string)
    ensures Rendering(texts + [t]) == Rendering(texts) + [Fill(t), PressEnter]
  {
    if texts == [] {
      assert texts + [t] == [t];
    } else {
      assert (texts + [t])[1..] == texts[1..] + [t];
      RenderingSnoc(texts[1..], t);
    }
  }

  /** The texts can be read back from the rendering, in the order given. */
  lemma {:induction false} FilledTextsOfRendering(texts: seq<string>)
    ensures FilledTexts(Rendering(texts)) == texts
  {
    if texts != [] {
      var r := Rendering(texts);
      assert r[1..][1..] == Rendering(texts[1..]);
      FilledTextsOfRendering(texts[1..]);
    }
  }
}
