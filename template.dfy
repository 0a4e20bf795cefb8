/**
 * Prompt templates: the user prompt of every handler is a fixed text with
 * named holes filled from the request (`${metadata?.title || 'Procedura'}`)
 * and one place where the caller's main text is embedded as it is
 * (`${content}`). The wording is data; the properties are about the holes.
 */
module Template {
  import opened Wrappers
  import opened JsText

  /** Fixed text, a named hole with its fallback, or the caller's main text. */
  datatype Piece = Text(text: string) | Slot(key: string, fallback: string) | Body

  type Template = seq<Piece>

  /** The string fields a template can read, by name. */
  type Env = map<string, string>

  /** `env[key]`, undefined when absent. */
  function Lookup(env: Env, key: string): Option<string> {
    if key in env then Some(env[key]) else None
  }

  /** `env` with `key` set when `v` is present: an object literal built from optional fields. */
  function Bind(env: Env, key: string, v: Option<string>): (e: Env)
    ensures Lookup(e, key) == (if v.Some? then v else Lookup(env, key))
    ensures forall k :: k != key ==> Lookup(e, k) == Lookup(env, k)
  {
    if v.Some? then env[key := v.value] else env
  }

  /** `env?.[key] || fallback` */
  function SlotValue(env: Env, key: string, fallback: string): string {
    OrElse(Lookup(env, key), fallback)
  }

  function RenderPiece(p: Piece, env: Env, body: string): string {
    match p
    case Text(s) => s
    case Slot(key, fallback) => SlotValue(env, key, fallback)
    case Body => body
  }

  /** The template literal evaluated: the pieces rendered and concatenated in order. */
  function Render(t: Template, env: Env, body: string): string {
    if t == [] then "" else RenderPiece(t[0], env, body) + Render(t[1..], env, body)
  }

  function SlotOf(p: Piece): seq<(string, string)> {
    if p.Slot? then [(p.key, p.fallback)] else []
  }

  /** The holes of `t` in order, each with its fallback. */
  function Slots(t: Template): seq<(string, string)> {
    if t == [] then [] else SlotOf(t[0]) + Slots(t[1..])
  }

  /** The names of the holes of `t`. */
  function SlotKeys(t: Template): set<string> {
    set s | s in Slots(t) :: s.0
  }

  /** How many times the caller's main text is embedded. */
  function BodyCount(t: Template): nat {
    if t == [] then 0 else (if t[0] == Body then 1 else 0) + BodyCount(t[1..])
  }

  /** One step of `Slots` from position `j`, for unfolding a fixed template piece by piece. */
  lemma SlotsStep(t: Template, j: nat)
    requires j < |t|
    ensures Slots(t[j..]) == SlotOf(t[j]) + Slots(t[j + 1..])
  {
    assert t[j..][1..] == t[j + 1..];
  }

  /** One step of `Render` from position `j`. */
  lemma RenderStep(t: Template, j: nat, env: Env, body: string)
    requires j < |t|
    ensures Render(t[j..], env, body) == RenderPiece(t[j], env, body) + Render(t[j + 1..], env, body)
  {
    assert t[j..][1..] == t[j + 1..];
  }

  /** One step of `BodyCount` from position `j`. */
  lemma BodyCountStep(t: Template, j: nat)
    requires j < |t|
    ensures BodyCount(t[j..]) == (if t[j] == Body then 1 else 0) + BodyCount(t[j + 1..])
  {
    assert t[j..][1..] == t[j + 1..];
  }

  /** Where the caller's main text is embedded. */
  function BodyIndex(t: Template): (i: nat)
    requires BodyCount(t) > 0
    ensures i < |t| && t[i] == Body
    ensures BodyCount(t[..i]) == 0 && BodyCount(t[i + 1..]) == BodyCount(t) - 1
  {
    if t[0] == Body then
      assert t[..0] == [] && t[1..] == t[0 + 1..];
      0
    else
      var i := BodyIndex(t[1..]);
      assert t[..i + 1] == [t[0]] + t[1..][..i];
      assert BodyCount(t[..i + 1]) == BodyCount(t[1..][..i]);
      assert t[i + 1 + 1..] == t[1..][i + 1..];
      i + 1
  }

  /** Two field sets that a template cannot tell apart at `key`: both falsy, or both the same text. */
  predicate SameAt(e1: Env, e2: Env, key: string) {
    Truthy(Lookup(e1, key)) == Truthy(Lookup(e2, key))
    && (Truthy(Lookup(e1, key)) ==> Lookup(e1, key) == Lookup(e2, key))
  }

  /** Rendering distributes over the concatenation of templates. */
  lemma {:induction false} RenderAppend(t1: Template, t2: Template, env: Env, body: string)
    ensures Render(t1 + t2, env, body) == Render(t1, env, body) + Render(t2, env, body)
  {
    if t1 == [] {
      assert t1 + t2 == t2;
    } else {
      assert (t1 + t2)[0] == t1[0] && (t1 + t2)[1..] == t1[1..] + t2;
      RenderAppend(t1[1..], t2, env, body);
    }
  }

  /** A template reads nothing but its holes: field sets that agree on them render alike. */
  lemma {:induction false} RenderReadsOnlySlots(t: Template, e1: Env, e2: Env, body: string)
    requires forall k :: k in SlotKeys(t) ==> SameAt(e1, e2, k)
    ensures Render(t, e1, body) == Render(t, e2, body)
  {
    if t != [] {
      if t[0].Slot? {
        assert (t[0].key, t[0].fallback) in Slots(t);
        assert SameAt(e1, e2, t[0].key);
      }
      forall s | s in Slots(t[1..]) ensures s in Slots(t) {}
      RenderReadsOnlySlots(t[1..], e1, e2, body);
    }
  }

  /** Rendering a template shaped text, hole, text, caller's text, text: its pieces in order. */
  lemma RenderOneSlot(t: Template, env: Env, body: string)
    requires |t| == 5 && t[0].Text? && t[1].Slot? && t[2].Text? && t[3] == Body && t[4].Text?
    ensures Render(t, env, body)
            == t[0].text + SlotValue(env, t[1].key, t[1].fallback) + t[2].text + body + t[4].text
  {
    assert t[5..] == [];
    RenderStep(t, 4, env, body);
    RenderStep(t, 3, env, body);
    RenderStep(t, 2, env, body);
    RenderStep(t, 1, env, body);
    RenderStep(t, 0, env, body);
    assert t[0..] == t;
  }

  /** Rendering a template shaped text, hole, text, hole: its pieces in order. */
  lemma RenderTwoSlots(t: Template, env: Env, body: string)
    requires |t| == 4 && t[0].Text? && t[1].Slot? && t[2].Text? && t[3].Slot?
    ensures Render(t, env, body)
            == t[0].text + SlotValue(env, t[1].key, t[1].fallback) + t[2].text + SlotValue(env, t[3].key, t[3].fallback)
  {
    assert t[4..] == [];
    RenderStep(t, 3, env, body);
    RenderStep(t, 2, env, body);
    RenderStep(t, 1, env, body);
    RenderStep(t, 0, env, body);
    assert t[0..] == t;
  }

  /** Without an embedding point, the caller's main text does not reach the rendered prompt. */
  lemma {:induction false} RenderWithoutBody(t: Template, env: Env, b1: string, b2: string)
    requires BodyCount(t) == 0
    ensures Render(t, env, b1) == Render(t, env, b2)
  {
    if t != [] {
      RenderWithoutBody(t[1..], env, b1, b2);
    }
  }

  /** Text around one embedding point renders as its two sides around the caller's text. */
  lemma RenderAround(before: Template, after: Template, env: Env, body: string)
    requires BodyCount(before) == 0 && BodyCount(after) == 0
    ensures Render(before + ([Body] + after), env, body) == Render(before, env, "") + body + Render(after, env, "")
  {
    var rest := [Body] + after;
    assert rest[0] == Body && rest[1..] == after;
    RenderWithoutBody(before, env, body, "");
    RenderWithoutBody(after, env, body, "");
    calc {
      Render(before + rest, env, body);
      { RenderAppend(before, rest, env, body); }
      Render(before, env, body) + Render(rest, env, body);
      Render(before, env, "") + (body + Render(after, env, ""));
    }
  }

  /**
   * With a single embedding point the caller's text appears verbatim,
   * between a prefix and a suffix that do not depend on it.
   */
  lemma BodyVerbatim(t: Template, env: Env, body: string)
    requires BodyCount(t) == 1
    ensures Render(t, env, body)
            == Render(t[..BodyIndex(t)], env, "") + body + Render(t[BodyIndex(t) + 1..], env, "")
  {
    var i := BodyIndex(t);
    assert t == t[..i] + ([Body] + t[i + 1..]);
    RenderAround(t[..i], t[i + 1..], env, body);
  }

  /** With a single embedding point, the template is a fixed prefix and suffix around the caller's text. */
  lemma BodyFrame(t: Template, env: Env) returns (pre: string, post: string)
    requires BodyCount(t) == 1
    ensures forall body :: Render(t, env, body) == pre + body + post
  {
    pre, post := Render(t[..BodyIndex(t)], env, ""), Render(t[BodyIndex(t) + 1..], env, "");
    forall body ensures Render(t, env, body) == pre + body + post {
      BodyVerbatim(t, env, body);
    }
  }

  /** With a single embedding point, the rendered prompt determines the caller's text. */
  lemma BodyRecoverable(t: Template, env: Env, b1: string, b2: string)
    requires BodyCount(t) == 1
    requires Render(t, env, b1) == Render(t, env, b2)
    ensures b1 == b2
  {
    BodyVerbatim(t, env, b1);
    BodyVerbatim(t, env, b2);
    var pre := Render(t[..BodyIndex(t)], env, "");
    var post := Render(t[BodyIndex(t) + 1..], env, "");
    assert |b1| == |b2|;
    assert b1 == (pre + b1 + post)[|pre|..|pre| + |b1|];
    assert b2 == (pre + b2 + post)[|pre|..|pre| + |b2|];
  }
}
