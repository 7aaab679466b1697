/**
 * Lines shared by the generator scripts the solvers emit: the configuration
 * choice, the option switches and the number a direction prints as.
 */
module Scripts {
  import opened Common
  import opened Text
  import opened Config
  import opened Problems

  /** The three configurations a script can select. */
  datatype Conf = GpuConf | HipConf | CpuConf

  /**
   * The configuration of the `conf := ...` line.  CUDA is tested first;
   * solvers that know about HIP test it second; everything else gets the
   * default CPU configuration.
   */
  function ConfOf(o: Options, hipAware: bool): (c: Conf)
    ensures c == GpuConf <==> o.cuda
    ensures c == HipConf <==> !o.cuda && hipAware && o.hip
    ensures c == CpuConf <==> !o.cuda && !(hipAware && o.hip)
  {
    if o.cuda then GpuConf
    else if hipAware && o.hip then HipConf
    else CpuConf
  }

  function ConfText(c: Conf): string
  {
    match c
    case GpuConf => "conf := LocalConfig.fftx.confGPU();"
    case HipConf => "conf := FFTXGlobals.defaultHIPConf();"
    case CpuConf => "conf := LocalConfig.fftx.defaultConf();"
  }

  /** The three configuration lines differ, so the line names the configuration. */
  lemma ConfTextInjective(a: Conf, b: Conf)
    requires ConfText(a) == ConfText(b)
    ensures a == b
  {
  }

  /** The `conf := ...` line. */
  function ConfLine(o: Options, hipAware: bool): string
  {
    ConfText(ConfOf(o, hipAware))
  }

  /** Lines every FFTX script shares. */
  const LoadLine: string := "Load(fftx);"
  const ImportLine: string := "ImportAll(fftx);"
  const OptsLine: string := "opts := conf.getOpts(t);"
  const TagLine: string := "tt := opts.tagIt(t);"
  const GenLine: string := "c := opts.fftxGen(tt);"
  const FloatIncludeLine: string := "Add(opts.includes, \"<float.h>\");"

  const WrapLine: string := "opts.wrapCFuncs := true;"
  const FloatLine: string := "opts.TRealCtype := \"float\";"
  const RuleTreeLine: string := "opts.printRuleTree := true;"

  /**
   * The option switches after `opts := conf.getOpts(t);`: wrapping for GPU
   * targets, single precision for 'float', and rule-tree printing on request.
   */
  function OptionLines(o: Options, wrap: bool, ruleTree: bool): seq<string>
  {
    When(wrap, WrapLine) + When(o.realCType == Float, FloatLine) + When(ruleTree && o.printRuleTree, RuleTreeLine)
  }

  /** Each switch line is present exactly when its option asks for it. */
  lemma OptionLinesSwitches(o: Options, wrap: bool, ruleTree: bool)
    ensures var lines := OptionLines(o, wrap, ruleTree);
      && (WrapLine in lines <==> wrap)
      && (FloatLine in lines <==> o.realCType == Float)
      && (RuleTreeLine in lines <==> ruleTree && o.printRuleTree)
  {
    assert WrapLine[5] != FloatLine[5] && WrapLine[5] != RuleTreeLine[5] && FloatLine[5] != RuleTreeLine[5];
  }

  /** `str(problem.direction())` in a script, with the base solver module's encoding. */
  function DirString(d: Direction): (s: string)
    ensures s == "1" <==> d == Forward
    ensures s == "-1" <==> d == Inverse
  {
    IntToString(Code(d, SolverModuleCodes))
  }

  /** The `PrintTo` line of the FFTX-based scripts. */
  function PrettyPrintTo(name: string, ext: string): string
  {
    PrintToLine(name, ext, "opts.prettyPrint(c)")
  }

  /** The indentation of one call-graph entry inside `Compose([...])`. */
  const GraphIndent: string := "            "

  /** The call graph, one indented entry per line, in graph order. */
  function GraphLines(graph: seq<string>): (lines: seq<string>)
    ensures |lines| == |graph|
    ensures forall i :: 0 <= i < |graph| ==> lines[i] == GraphIndent + graph[i]
  {
    seq(|graph|, i requires 0 <= i < |graph| => GraphIndent + graph[i])
  }

  /** Removing the indentation from every line gives the call graph back. */
  lemma GraphLinesUnindent(graph: seq<string>)
    ensures var lines := GraphLines(graph);
      forall i :: 0 <= i < |lines| ==> StartsWith(lines[i], GraphIndent) && lines[i][|GraphIndent|..] == graph[i]
  {
    var lines := GraphLines(graph);
    forall i | 0 <= i < |lines|
      ensures StartsWith(lines[i], GraphIndent) && lines[i][|GraphIndent|..] == graph[i]
    {
      assert lines[i] == GraphIndent + graph[i];
      assert (GraphIndent + graph[i])[..|GraphIndent|] == GraphIndent;
    }
  }

  /**
   * The `t := let(symvar := ..., TFCall(Compose([...]), rec(...)) ...);` block
   * of the convolution scripts; `close` is the line that closes `TFCall`.
   */
  function ComposeBlock(graph: seq<string>, name: string, close: string): (lines: seq<string>)
    ensures |lines| == |graph| + 7
    ensures lines[3..3 + |graph|] == GraphLines(graph)
    ensures lines[4 + |graph|] == "        rec(fname := \"" + name + "\", params := [symvar])"
  {
    var head := ["t := let(symvar := var(\"sym\", TPtr(TReal)),", "    TFCall(", "        Compose(["];
    var tail := ["        ]),", "        rec(fname := \"" + name + "\", params := [symvar])", close, ");"];
    var lines := head + GraphLines(graph) + tail;
    assert lines[3..3 + |graph|] == GraphLines(graph);
    assert lines[4 + |graph|] == tail[1];
    lines
  }
}
