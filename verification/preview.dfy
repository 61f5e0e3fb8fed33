// The preview panel (components/Preview.tsx). Three things are modelled:
//   - the standalone page the panel exports (`getFullHtmlPage`): a fixed document
//     shell around the generated HTML, with the shell's <head> written as a list of
//     items rendered line by line;
//   - the settle step that runs after the generated HTML is mounted: a math pass
//     (KaTeX's `renderMathInElement`) and then a diagram pass (Mermaid), each in its own
//     try/catch, with both libraries treated as black boxes that may fail;
//   - the effect that mounts the HTML and schedules the settle step 50 ms later,
//     cancelling it on re-render and on unmount, as a class whose fields are the
//     mount's content, the pending timer and the clock.
module Preview {
  import opened Wrappers
  import opened Text

  // ---------------------------------------------------------------------------
  // Math and diagram settings
  // ---------------------------------------------------------------------------

  /** A KaTeX auto-render delimiter pair; `display` is block (true) or inline (false) math. */
  datatype Delimiter = Delimiter(left: string, right: string, display: bool)

  /** The options passed to `renderMathInElement`. */
  datatype MathOptions = MathOptions(delimiters: seq<Delimiter>, throwOnError: bool)

  /** The options passed to `mermaid.initialize`. */
  datatype MermaidConfig = MermaidConfig(startOnLoad: bool, theme: string)

  /** The options of the exported page's load handler (lines 20-26). */
  const ShellMathOptions: MathOptions :=
    MathOptions([Delimiter("$$", "$$", true), Delimiter("$", "$", false)], false)

  /** The options of the live panel's math pass (lines 64-70). */
  const LiveMathOptions: MathOptions :=
    MathOptions([Delimiter("$$", "$$", true), Delimiter("$", "$", false)], false)

  /** The exported page starts Mermaid on load (line 27). */
  const ShellMermaidConfig: MermaidConfig := MermaidConfig(true, "dark")

  /** The live panel runs Mermaid itself (line 80). */
  const LiveMermaidConfig: MermaidConfig := MermaidConfig(false, "dark")

  /**
   * No opening delimiter is a prefix of a later one, so none shadows a later one:
   * auto-render tries the delimiters in order, and `$` listed before `$$` would claim
   * every `$$`.
   */
  ghost predicate NoShadowedDelimiter(ds: seq<Delimiter>)
  {
    forall i, j :: 0 <= i < j < |ds| ==> !StartsWith(ds[j].left, ds[i].left)
  }

  /**
   * The exported page typesets math exactly as the live panel does: `$$` for display
   * math before `$` for inline math, no delimiter shadowed, errors not thrown.
   */
  lemma {:induction false} ShellMathMatchesLive()
    ensures ShellMathOptions == LiveMathOptions
    ensures |LiveMathOptions.delimiters| == 2
    ensures LiveMathOptions.delimiters[0] == Delimiter("$$", "$$", true)
    ensures LiveMathOptions.delimiters[1] == Delimiter("$", "$", false)
    ensures NoShadowedDelimiter(LiveMathOptions.delimiters)
    ensures !LiveMathOptions.throwOnError
  {
    var ds := LiveMathOptions.delimiters;
    assert !StartsWith(ds[1].left, ds[0].left) by {
      assert |ds[1].left| < |ds[0].left|;
    }
  }

  /** Both Mermaid set-ups use the dark theme; only the exported page renders on load. */
  lemma {:induction false} MermaidConfigsDifferOnlyInStart()
    ensures ShellMermaidConfig.theme == LiveMermaidConfig.theme == "dark"
    ensures ShellMermaidConfig.startOnLoad && !LiveMermaidConfig.startOnLoad
  {
  }

  // ---------------------------------------------------------------------------
  // The exported page
  // ---------------------------------------------------------------------------

  /** The items of the exported page's <head>, each rendered on its own lines. */
  datatype HeadItem =
    | Meta(attributes: string)
    | Title(text: string)
    | Script(src: string, deferred: bool)
    | Stylesheet(href: string)
    | OnLoad(math: MathOptions, diagrams: MermaidConfig)
    | Style(lines: seq<string>)

  const TailwindJs: string := "https://cdn.tailwindcss.com"
  const KatexCss: string := "https://cdn.jsdelivr.net/npm/katex@0.16.9/dist/katex.min.css"
  const KatexJs: string := "https://cdn.jsdelivr.net/npm/katex@0.16.9/dist/katex.min.js"
  const KatexAutoRenderJs: string := "https://cdn.jsdelivr.net/npm/katex@0.16.9/dist/contrib/auto-render.min.js"
  const MermaidJs: string := "https://cdn.jsdelivr.net/npm/mermaid@10/dist/mermaid.min.js"

  /** The shell's <head> (lines 10-37), in order. */
  const HeadItems: seq<HeadItem> := [
    Meta("charset=\"UTF-8\""),
    Meta("name=\"viewport\" content=\"width=device-width, initial-scale=1.0\""),
    Title("I tuoi Appunti"),
    Script(TailwindJs, false),
    Stylesheet(KatexCss),
    Script(KatexJs, true),
    Script(KatexAutoRenderJs, true),
    Script(MermaidJs, false),
    OnLoad(ShellMathOptions, ShellMermaidConfig),
    Style([
      "        body { background-color: #18181b; color: #d4d4d8; }",
      "        /* Fix for Mermaid diagrams to ensure visibility on dark background */",
      "        .mermaid { background-color: transparent !important; }",
      "        .mermaid svg {",
      "            color: #d4d4d8;",
      "        }"])
  ]

  function BoolText(b: bool): string
  {
    if b then "true" else "false"
  }

  /** A <head> line: six spaces of indentation, the text, a newline. */
  function HeadLine(s: string): string
  {
    "      " + s + "\n"
  }

  /** Lines already carrying their own indentation, each followed by a newline. */
  function Lines(ls: seq<string>): string
  {
    if ls == [] then "" else ls[0] + "\n" + Lines(ls[1..])
  }

  function DelimiterText(d: Delimiter): string
  {
    "{ left: '" + d.left + "', right: '" + d.right + "', display: " + BoolText(d.display) + " }"
  }

  /** The delimiter list, one per line, separated by commas. */
  function DelimiterLines(ds: seq<Delimiter>): string
  {
    if ds == [] then ""
    else "               " + DelimiterText(ds[0]) + (if |ds| > 1 then "," else "") + "\n" + DelimiterLines(ds[1..])
  }

  /** The load handler's code: typeset the math, then start Mermaid. */
  function OnLoadCode(math: MathOptions, diagrams: MermaidConfig): string
  {
    "        document.addEventListener('DOMContentLoaded', function () {\n"
    + "           renderMathInElement(document.body, {\n"
    + "             delimiters: [\n"
    + DelimiterLines(math.delimiters)
    + "             ],\n"
    + "             throwOnError: " + BoolText(math.throwOnError) + "\n"
    + "           });\n"
    + "           mermaid.initialize({ startOnLoad: " + BoolText(diagrams.startOnLoad)
    + ", theme: '" + diagrams.theme + "' });\n"
    + "        });\n"
  }

  function RenderItem(item: HeadItem): string
  {
    match item
    case Meta(attributes) => HeadLine("<meta " + attributes + " />")
    case Title(text) => HeadLine("<title>" + text + "</title>")
    case Script(src, deferred) =>
      HeadLine("<script " + (if deferred then "defer " else "") + "src=\"" + src + "\"></script>")
    case Stylesheet(href) => HeadLine("<link rel=\"stylesheet\" href=\"" + href + "\">")
    case OnLoad(math, diagrams) => HeadLine("<script>") + OnLoadCode(math, diagrams) + HeadLine("</script>")
    case Style(lines) => HeadLine("<style>") + Lines(lines) + HeadLine("</style>")
  }

  function RenderItems(items: seq<HeadItem>): string
  {
    if items == [] then "" else RenderItem(items[0]) + RenderItems(items[1..])
  }

  const BodyTag: string := "<body class=\"bg-zinc-900 text-zinc-300\">"
  const BodyEndTag: string := "</body>"

  /** Everything of the exported page before the generated HTML. */
  const PageHead: string :=
    "<!DOCTYPE html>\n<html lang=\"it\">\n    <head>\n" + RenderItems(HeadItems) + "    </head>\n"
    + "    " + BodyTag + "\n      "

  /** Everything of the exported page after the generated HTML. */
  const PageTail: string := "\n    " + BodyEndTag + "\n  </html>\n"

  /** `getFullHtmlPage`: the fixed head, the generated HTML verbatim, the fixed tail. */
  function FullHtmlPage(body: string): (r: string)
    ensures |r| == |PageHead| + |body| + |PageTail|
    ensures StartsWith(r, PageHead) && EndsWith(r, PageTail)
    ensures r[|PageHead|..|r| - |PageTail|] == body
  {
    var r := PageHead + body + PageTail;
    assert r[|PageHead|..|r| - |PageTail|] == body;
    r
  }

  /** Reading the generated HTML back out of an exported page; `None` when the shell is missing. */
  function PageBody(page: string): (r: Option<string>)
    ensures r.Some? <==> |PageHead| + |PageTail| <= |page| && StartsWith(page, PageHead) && EndsWith(page, PageTail)
  {
    if |PageHead| + |PageTail| <= |page| && StartsWith(page, PageHead) && EndsWith(page, PageTail)
    then Some(page[|PageHead|..|page| - |PageTail|])
    else None
  }

  /** Wrapping then reading back gives the generated HTML. */
  lemma {:induction false} PageBodyOfFullHtmlPage(body: string)
    ensures PageBody(FullHtmlPage(body)) == Some(body)
  {
    var p := FullHtmlPage(body);
    assert |PageHead| + |PageTail| <= |p|;
  }

  /** Different HTML gives different pages. */
  lemma {:induction false} FullHtmlPageInjective(a: string, b: string)
    requires FullHtmlPage(a) == FullHtmlPage(b)
    ensures a == b
  {
    PageBodyOfFullHtmlPage(a);
    PageBodyOfFullHtmlPage(b);
  }

  /** The generated HTML sits between the <body> tag (and its line break and indentation) and the closing </body>. */
  lemma {:induction false} BodyBetweenBodyTags(body: string)
    ensures EndsWith(PageHead, BodyTag + "\n      ")
    ensures StartsWith(PageTail, "\n    " + BodyEndTag)
  {
    var before := "<!DOCTYPE html>\n<html lang=\"it\">\n    <head>\n" + RenderItems(HeadItems) + "    </head>\n" + "    ";
    assert PageHead == before + (BodyTag + "\n      ");
    var tail := "\n    " + BodyEndTag;
    assert PageTail == tail + "\n  </html>\n";
  }

  /** The external scripts a list of <head> items loads, in order. */
  function ScriptSources(items: seq<HeadItem>): (r: seq<string>)
    ensures |r| <= |items|
  {
    if items == [] then []
    else (if items[0].Script? then [items[0].src] else []) + ScriptSources(items[1..])
  }

  /** Some script item of the list has `src` as its source. */
  ghost predicate HasScript(items: seq<HeadItem>, src: string) {
    exists i :: 0 <= i < |items| && items[i].Script? && items[i].src == src
  }

  /** The sources listed are exactly the `src` attributes of the list's script items. */
  lemma {:induction false} ScriptSourcesAreScripts(items: seq<HeadItem>)
    ensures forall k :: 0 <= k < |ScriptSources(items)| ==> HasScript(items, ScriptSources(items)[k])
    ensures forall i :: 0 <= i < |items| && items[i].Script? ==> items[i].src in ScriptSources(items)
    decreases |items|
  {
    if items != [] {
      var rest := items[1..];
      ScriptSourcesAreScripts(rest);
      var r := ScriptSources(items);
      var head := if items[0].Script? then [items[0].src] else [];
      assert r == head + ScriptSources(rest);
      forall i | 0 <= i < |items| && items[i].Script?
        ensures items[i].src in r
      {
        if i > 0 {
          assert items[i] == rest[i - 1];
        }
      }
      forall k | 0 <= k < |r|
        ensures HasScript(items, r[k])
      {
        if k < |head| {
          assert items[0].Script? && items[0].src == r[k];
        } else {
          assert r[k] == ScriptSources(rest)[k - |head|];
          assert HasScript(rest, ScriptSources(rest)[k - |head|]);
          var i :| 0 <= i < |rest| && rest[i].Script? && rest[i].src == ScriptSources(rest)[k - |head|];
          assert items[i + 1] == rest[i];
          assert items[i + 1].Script? && items[i + 1].src == r[k];
        }
      }
    } else {
      assert ScriptSources(items) == [];
    }
  }

  /** The shell loads Tailwind, KaTeX, KaTeX's auto-render extension and Mermaid, in that order. */
  lemma {:induction false} ShellScriptSources()
    ensures ScriptSources(HeadItems) == [TailwindJs, KatexJs, KatexAutoRenderJs, MermaidJs]
  {
    var h := HeadItems;
    assert ScriptSources(h[9..]) == [] by {
      assert h[9..][1..] == [];
    }
    assert ScriptSources(h[8..]) == [] by {
      assert h[8..][1..] == h[9..];
    }
    assert ScriptSources(h[7..]) == [MermaidJs] by {
      assert h[7..][1..] == h[8..];
    }
    assert ScriptSources(h[6..]) == [KatexAutoRenderJs, MermaidJs] by {
      assert h[6..][1..] == h[7..];
    }
    assert ScriptSources(h[5..]) == [KatexJs, KatexAutoRenderJs, MermaidJs] by {
      assert h[5..][1..] == h[6..];
    }
    assert ScriptSources(h[4..]) == [KatexJs, KatexAutoRenderJs, MermaidJs] by {
      assert h[4..][1..] == h[5..];
    }
    assert ScriptSources(h[3..]) == [TailwindJs, KatexJs, KatexAutoRenderJs, MermaidJs] by {
      assert h[3..][1..] == h[4..];
    }
    assert ScriptSources(h[2..]) == ScriptSources(h[3..]) by {
      assert h[2..][1..] == h[3..];
    }
    assert ScriptSources(h[1..]) == ScriptSources(h[2..]) by {
      assert h[1..][1..] == h[2..];
    }
  }

  /** The shell loads the KaTeX script and the Mermaid script exactly once each. */
  lemma {:induction false} ShellLoadsEachLibraryOnce()
    ensures multiset(ScriptSources(HeadItems))[KatexJs] == 1
    ensures multiset(ScriptSources(HeadItems))[MermaidJs] == 1
  {
    ShellScriptSources();
    assert |TailwindJs| < |KatexJs| < |KatexAutoRenderJs|;
    assert |MermaidJs| == |KatexJs| && KatexJs[30] != MermaidJs[30];
    var sources := [TailwindJs, KatexJs, KatexAutoRenderJs, MermaidJs];
    assert multiset(sources) == multiset{TailwindJs} + multiset{KatexJs} + multiset{KatexAutoRenderJs} + multiset{MermaidJs};
  }

  /** The shell's load handler is configured with the live panel's math options. */
  lemma {:induction false} ShellHandlerUsesLiveMathOptions()
    ensures OnLoad(LiveMathOptions, ShellMermaidConfig) in HeadItems
  {
    ShellMathMatchesLive();
    assert HeadItems[8] == OnLoad(LiveMathOptions, ShellMermaidConfig);
  }

  // ---------------------------------------------------------------------------
  // The settle step
  // ---------------------------------------------------------------------------

  /**
   * What Mermaid offers the panel: `initialize` either returns or throws (the error), and
   * `run` over the mount's diagram elements either renders them (the new mount content)
   * or throws.
   */
  datatype MermaidLib = MermaidLib(
    initialize: MermaidConfig -> Option<string>,
    run: string -> Result<string, string>)

  /**
   * The globals the settle step looks up on `window`, and the query for `.mermaid`
   * elements in the mount. `renderMath` typesets the mount's content with the given
   * options, or throws.
   */
  datatype Window = Window(
    renderMath: Option<(string, MathOptions) -> Result<string, string>>,
    mermaid: Option<MermaidLib>,
    diagramCount: string -> nat)

  /** How a pass went: the library is missing, there was nothing to render, it rendered, or it threw and the error was caught. */
  datatype Pass = Missing | NothingToRender | Rendered | Caught(error: string)

  /** A pass's outcome and the mount's content after it. */
  datatype PassResult = PassResult(outcome: Pass, mount: string)

  /** The console output of a caught error. */
  datatype LogEntry = MathError(error: string) | DiagramError(error: string)

  /** The math pass (lines 60-74): only when `renderMathInElement` exists; a throw is caught and leaves the mount as it was. */
  function MathPass(w: Window, mount: string): (r: PassResult)
    ensures r.outcome.Missing? <==> w.renderMath.None?
    ensures !r.outcome.NothingToRender?
    ensures r.outcome.Rendered? ==> w.renderMath.Some? && w.renderMath.value(mount, LiveMathOptions) == Success(r.mount)
    ensures r.outcome.Caught? ==> w.renderMath.Some? && w.renderMath.value(mount, LiveMathOptions) == Failure(r.outcome.error)
    ensures !r.outcome.Rendered? ==> r.mount == mount
  {
    match w.renderMath
    case None => PassResult(Missing, mount)
    case Some(render) =>
      match render(mount, LiveMathOptions)
      case Success(m) => PassResult(Rendered, m)
      case Failure(e) => PassResult(Caught(e), mount)
  }

  /**
   * The diagram pass (lines 76-88): only when Mermaid exists; it is initialised with
   * the live settings, and run only when the mount holds at least one diagram. A throw
   * from either call is caught and leaves the mount as it was.
   */
  function DiagramPass(w: Window, mount: string): (r: PassResult)
    ensures r.outcome.Missing? <==> w.mermaid.None?
    ensures r.outcome.NothingToRender? <==>
      w.mermaid.Some? && w.mermaid.value.initialize(LiveMermaidConfig).None? && w.diagramCount(mount) == 0
    ensures r.outcome.Rendered? ==>
      && w.mermaid.Some? && w.mermaid.value.initialize(LiveMermaidConfig).None?
      && w.diagramCount(mount) > 0 && w.mermaid.value.run(mount) == Success(r.mount)
    ensures r.outcome.Caught? ==>
      && w.mermaid.Some?
      && (|| w.mermaid.value.initialize(LiveMermaidConfig) == Some(r.outcome.error)
          || (&& w.mermaid.value.initialize(LiveMermaidConfig).None?
              && w.diagramCount(mount) > 0
              && w.mermaid.value.run(mount) == Failure(r.outcome.error)))
    ensures !r.outcome.Rendered? ==> r.mount == mount
  {
    match w.mermaid
    case None => PassResult(Missing, mount)
    case Some(lib) =>
      match lib.initialize(LiveMermaidConfig)
      case Some(e) => PassResult(Caught(e), mount)
      case None =>
        if w.diagramCount(mount) == 0 then PassResult(NothingToRender, mount)
        else match lib.run(mount)
          case Success(m) => PassResult(Rendered, m)
          case Failure(e) => PassResult(Caught(e), mount)
  }

  /** The console lines for a pass: one for a caught error, none otherwise. */
  function Logged(p: Pass, entry: string -> LogEntry): seq<LogEntry>
  {
    if p.Caught? then [entry(p.error)] else []
  }

  /** The outcome of a settle step: both passes, the mount after them, and what was logged. */
  datatype Settled = Settled(math: Pass, diagrams: Pass, mount: string, log: seq<LogEntry>)

  /** The settle step: the math pass, then the diagram pass over what the math pass left. */
  function Settle(w: Window, mount: string): (r: Settled)
    ensures r.math == MathPass(w, mount).outcome
    ensures r.diagrams == DiagramPass(w, MathPass(w, mount).mount).outcome
    ensures r.mount == DiagramPass(w, MathPass(w, mount).mount).mount
  {
    var m := MathPass(w, mount);
    var d := DiagramPass(w, m.mount);
    Settled(m.outcome, d.outcome, d.mount,
            Logged(m.outcome, e => MathError(e)) + Logged(d.outcome, e => DiagramError(e)))
  }

  /** Errors are logged in pass order, the math error first, and only for passes that threw. */
  lemma {:induction false} SettleLogsCaughtErrors(w: Window, mount: string)
    ensures var r := Settle(w, mount);
      && |r.log| <= 2
      && (forall e :: MathError(e) in r.log <==> r.math == Caught(e))
      && (forall e :: DiagramError(e) in r.log <==> r.diagrams == Caught(e))
      && (r.math.Caught? ==> r.log[0] == MathError(r.math.error))
      && (r.diagrams.Caught? ==> r.log[|r.log| - 1] == DiagramError(r.diagrams.error))
  {
    var r := Settle(w, mount);
    var lm := Logged(r.math, e => MathError(e));
    var ld := Logged(r.diagrams, e => DiagramError(e));
    assert r.log == lm + ld;
    assert forall x :: x in lm ==> x.MathError?;
    assert forall x :: x in ld ==> x.DiagramError?;
  }

  /** A failing math pass skips nothing: the diagram pass runs as it would have on the untouched mount. */
  lemma {:induction false} MathFailureDoesNotSkipDiagrams(w: Window, mount: string)
    requires Settle(w, mount).math.Caught?
    ensures Settle(w, mount).diagrams == DiagramPass(w, mount).outcome
    ensures Settle(w, mount).mount == DiagramPass(w, mount).mount
  {
  }

  /** Without Mermaid, or with no diagram in the mount, the settle step is the math pass alone. */
  lemma {:induction false} NoDiagramsMeansMathOnly(w: Window, mount: string)
    requires w.mermaid.None? || w.diagramCount(MathPass(w, mount).mount) == 0
    ensures Settle(w, mount).mount == MathPass(w, mount).mount
    ensures !Settle(w, mount).diagrams.Rendered?
  {
  }

  // ---------------------------------------------------------------------------
  // The panel
  // ---------------------------------------------------------------------------

  /** The delay of the settle step, in milliseconds (line 89). */
  const SettleDelay: nat := 50

  /** A scheduled settle step: when it fires and the content it was scheduled for. */
  datatype Timer = Timer(due: nat, scheduledFor: string)

  /**
   * One preview panel. `htmlContent` is the prop the effect last ran for, `mount` the
   * content of the panel's element, `pending` the settle step not yet fired, `now` the
   * clock in milliseconds and `console` what the settle steps logged.
   */
  class PreviewPane {
    var htmlContent: string
    var mount: string
    var pending: Option<Timer>
    var now: nat
    var console: seq<LogEntry>
    var mounted: bool

    /**
     * At most one settle step is pending, it belongs to the latest non-empty content,
     * which is still what the mount holds, and it is due within the next 50 ms.
     */
    ghost predicate Valid()
      reads this
    {
      pending.Some? ==>
        && mounted
        && htmlContent != []
        && pending.value.scheduledFor == htmlContent
        && mount == htmlContent
        && now < pending.value.due <= now + SettleDelay
    }

    /** The first render: the element starts empty, then the effect runs for `content`. */
    constructor (content: string)
      ensures Valid() && mounted
      ensures htmlContent == content && now == 0 && console == []
      ensures content != [] ==> mount == content && pending == Some(Timer(SettleDelay, content))
      ensures content == [] ==> mount == [] && pending == None
    {
      htmlContent := content;
      now := 0;
      console := [];
      mounted := true;
      if content != [] {
        mount := content;
        pending := Some(Timer(SettleDelay, content));
      } else {
        mount := [];
        pending := None;
      }
    }

    /** The copy button's payload: the prop as generated, not the rendered mount. */
    function CopyPayload(): (r: string)
      reads this
      ensures r == htmlContent
    {
      htmlContent
    }

    /** The page the "open in a new tab" button exports. */
    function ExportedPage(): (r: string)
      reads this
      ensures PageBody(r) == Some(CopyPayload())
    {
      PageBodyOfFullHtmlPage(htmlContent);
      FullHtmlPage(htmlContent)
    }

    /** `clearTimeout(timerId)`: the pending settle step, if any, never fires. */
    method CancelPending()
      modifies this
      ensures pending == None
      ensures htmlContent == old(htmlContent) && mount == old(mount) && now == old(now)
      ensures console == old(console) && mounted == old(mounted)
    {
      pending := None;
    }

    /**
     * A render with `content` as the prop. The effect depends on the content only: when
     * it is unchanged nothing happens. Otherwise the previous effect's cleanup cancels
     * the pending step; then, for non-empty content, the mount gets exactly the content
     * and one settle step is scheduled 50 ms ahead. Empty content leaves the mount as it
     * was and schedules nothing.
     */
    method Render(content: string)
      requires Valid() && mounted
      modifies this
      ensures Valid() && mounted
      ensures htmlContent == content && now == old(now) && console == old(console)
      ensures content == old(htmlContent) ==> mount == old(mount) && pending == old(pending)
      ensures content != old(htmlContent) && content != [] ==>
        mount == content && pending == Some(Timer(now + SettleDelay, content))
      ensures content != old(htmlContent) && content == [] ==> mount == old(mount) && pending == None
    {
      if content != htmlContent {
        CancelPending();
        htmlContent := content;
        if content != [] {
          mount := content;
          pending := Some(Timer(now + SettleDelay, content));
        }
      }
    }

    /** The settle step run on the mount in place: math pass, then diagram pass, errors logged. */
    method RunSettle(w: Window)
      requires pending == None
      modifies this
      ensures Valid()
      ensures mount == Settle(w, old(mount)).mount
      ensures console == old(console) + Settle(w, old(mount)).log
      ensures htmlContent == old(htmlContent) && pending == old(pending) && now == old(now)
      ensures mounted == old(mounted)
    {
      var math := MathPass(w, mount);
      mount := math.mount;
      if math.outcome.Caught? {
        console := console + [MathError(math.outcome.error)];
      }
      var diagrams := DiagramPass(w, mount);
      mount := diagrams.mount;
      if diagrams.outcome.Caught? {
        console := console + [DiagramError(diagrams.outcome.error)];
      }
    }

    /**
     * `ms` milliseconds pass. If the pending step falls due, it fires once: the settle
     * step runs on the mount and nothing is pending any more.
     */
    method Advance(ms: nat, w: Window)
      requires Valid()
      modifies this
      ensures Valid()
      ensures now == old(now) + ms
      ensures htmlContent == old(htmlContent) && mounted == old(mounted)
      ensures old(pending).Some? && old(pending).value.due <= now ==>
        && pending == None
        && mount == Settle(w, old(mount)).mount
        && console == old(console) + Settle(w, old(mount)).log
      ensures !(old(pending).Some? && old(pending).value.due <= now) ==>
        pending == old(pending) && mount == old(mount) && console == old(console)
    {
      now := now + ms;
      if pending.Some? && pending.value.due <= now {
        pending := None;
        RunSettle(w);
      }
    }

    /** Unmounting: the cleanup cancels the pending step; nothing fires afterwards. */
    method Teardown()
      requires Valid()
      modifies this
      ensures Valid() && !mounted && pending == None
      ensures htmlContent == old(htmlContent) && mount == old(mount) && now == old(now)
      ensures console == old(console)
    {
      CancelPending();
      mounted := false;
    }
  }

  /**
   * Supersession: content rendered and replaced before its settle step was due is never
   * settled. When the first render's step would have been due the mount still holds the
   * replacement as mounted; 50 ms after the replacement its step runs, once, and
   * the console holds exactly one settle step's output.
   */
  method SupersededContentNeverSettles(first: string, second: string, gap: nat, w: Window)
    returns (mountAtFirstDue: string, mountAtSecondDue: string, logged: seq<LogEntry>)
    requires first != [] && second != [] && first != second && 0 < gap < SettleDelay
    ensures mountAtFirstDue == second
    ensures mountAtSecondDue == Settle(w, second).mount
    ensures logged == Settle(w, second).log
  {
    var pane := new PreviewPane(first);
    pane.Advance(gap, w);
    pane.Render(second);
    pane.Advance(SettleDelay - gap, w);
    mountAtFirstDue := pane.mount;
    pane.Advance(gap, w);
    mountAtSecondDue := pane.mount;
    pane.Advance(SettleDelay, w);
    logged := pane.console;
  }
}
