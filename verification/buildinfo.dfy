/**
 * `spiral.py`: asking the Spiral executable for its build information and
 * parsing the `key: value` lines it prints on standard output.
 *
 * Running the process is not modelled: its standard output arrives as a
 * parameter, None when launching it raised.  Byte decoding is a `decode`
 * parameter that fails on bytes that are not valid text (Python's
 * UnicodeDecodeError, a ValueError).
 */
module BuildInfo {
  import opened Common
  import opened Text
  import opened Config

  /** The keys Spiral's build information is known to carry. */
  const KeyCMakeVersion: string := "CMakeVersion"
  const KeyCompiler: string := "Compiler"
  const KeyConfiguration: string := "Configuration"
  const KeyDateTimeUTC: string := "DateTimeUTC"
  const KeyGitBranch: string := "GitBranch"
  const KeyGitHash: string := "GitHash"
  const KeyGitRemote: string := "GitRemote"
  const KeySystem: string := "System"
  const KeyVersion: string := "Version"

  /** The launcher script on Windows, the executable elsewhere. */
  function SpiralExe(os: HostOS): (exe: string)
    ensures exe == "spiral.bat" <==> os == Win32
    ensures exe == "spiral" <==> os != Win32
  {
    if os == Win32 then "spiral.bat" else "spiral"
  }

  /** The process started: `<exe> -B`, with commands on standard input for Spirals without `-B`. */
  datatype Invocation = Invocation(argv: seq<string>, input: string)

  function Command(os: HostOS): (c: Invocation)
    ensures |c.argv| == 2 && c.argv[0] == SpiralExe(os) && c.argv[1] == "-B"
  {
    Invocation([SpiralExe(os), "-B"], "BuildInfo();\nquit;\n")
  }

  const Newline: Byte := 10
  const Colon: Byte := 58

  /** The bytes `bytes.strip()` removes: space, tab, new-line, carriage return, vertical tab, form feed. */
  predicate IsSpace(b: Byte)
  {
    b == 32 || 9 <= b <= 13
  }

  predicate AllSpace(s: seq<Byte>)
  {
    forall i :: 0 <= i < |s| ==> IsSpace(s[i])
  }

  /** s without its leading whitespace. */
  function StripLeft(s: seq<Byte>): seq<Byte>
  {
    if |s| > 0 && IsSpace(s[0]) then StripLeft(s[1..]) else s
  }

  /** s without its trailing whitespace. */
  function StripRight(s: seq<Byte>): seq<Byte>
  {
    if |s| > 0 && IsSpace(s[|s| - 1]) then StripRight(s[..|s| - 1]) else s
  }

  /** What StripLeft keeps is a suffix after only whitespace, starting with a non-whitespace byte. */
  lemma {:induction false} StripLeftSuffix(s: seq<Byte>) returns (i: nat)
    ensures i <= |s| && StripLeft(s) == s[i..]
    ensures forall k :: 0 <= k < i ==> IsSpace(s[k])
    ensures i < |s| ==> !IsSpace(s[i])
  {
    if |s| > 0 && IsSpace(s[0]) {
      var i' := StripLeftSuffix(s[1..]);
      i := i' + 1;
      assert s[1..][i'..] == s[i..];
      forall k | 0 <= k < i ensures IsSpace(s[k]) {
        if k > 0 { assert s[k] == s[1..][k - 1]; }
      }
    } else {
      i := 0;
    }
  }

  /** What StripRight keeps is a prefix before only whitespace, ending with a non-whitespace byte. */
  lemma {:induction false} StripRightPrefix(s: seq<Byte>) returns (j: nat)
    ensures j <= |s| && StripRight(s) == s[..j]
    ensures forall k :: j <= k < |s| ==> IsSpace(s[k])
    ensures 0 < j ==> !IsSpace(s[j - 1])
  {
    if |s| > 0 && IsSpace(s[|s| - 1]) {
      j := StripRightPrefix(s[..|s| - 1]);
      assert s[..|s| - 1][..j] == s[..j];
      forall k | j <= k < |s| ensures IsSpace(s[k]) {
        if k < |s| - 1 { assert s[k] == s[..|s| - 1][k]; }
      }
    } else {
      j := |s|;
    }
  }

  /** `bytes.strip()`. */
  function Strip(s: seq<Byte>): seq<Byte>
  {
    StripRight(StripLeft(s))
  }

  /**
   * What strip keeps is the run from the first to the last non-whitespace
   * byte: everything outside it is whitespace, and it neither starts nor
   * ends with whitespace.
   */
  lemma StripBounds(s: seq<Byte>) returns (i: nat, j: nat)
    ensures i <= j <= |s| && Strip(s) == s[i..j]
    ensures forall k :: 0 <= k < i ==> IsSpace(s[k])
    ensures forall k :: j <= k < |s| ==> IsSpace(s[k])
    ensures i < j ==> !IsSpace(s[i]) && !IsSpace(s[j - 1])
  {
    i := StripLeftSuffix(s);
    var l := s[i..];
    var m := StripRightPrefix(l);
    j := i + m;
    assert l[..m] == s[i..j];
    forall k | j <= k < |s| ensures IsSpace(s[k]) {
      assert s[k] == l[k - i];
    }
    if i < j {
      assert s[i] == l[0] && s[j - 1] == l[m - 1];
    }
  }

  /** Only whitespace strips to nothing. */
  lemma StripEmpty(s: seq<Byte>)
    ensures Strip(s) == [] <==> AllSpace(s)
  {
    var i, j := StripBounds(s);
    if i == j {
      assert forall k :: 0 <= k < |s| ==> IsSpace(s[k]);
    }
  }

  /** Stripping twice strips nothing more. */
  lemma StripIdempotent(s: seq<Byte>)
    ensures Strip(Strip(s)) == Strip(s)
  {
    var t := Strip(s);
    var i0, j0 := StripBounds(s);
    var i, j := StripBounds(t);
    if |t| > 0 {
      assert t[0] == s[i0] && t[|t| - 1] == s[j0 - 1];
    }
  }

  /** `item.split(b':', 1)` when it yields two parts: the bytes before the first colon and those after it. */
  function SplitColon(line: seq<Byte>): (r: Option<(seq<Byte>, seq<Byte>)>)
    ensures r.None? <==> Colon !in line
  {
    if Colon in line then
      var k := IndexOf(line, Colon);
      Some((line[..k], line[k + 1..]))
    else None
  }

  /** The split puts the line back together around its first colon. */
  lemma SplitColonRejoins(line: seq<Byte>)
    requires Colon in line
    ensures var (k, v) := SplitColon(line).value; line == k + [Colon] + v && Colon !in k
  {
    var k := IndexOf(line, Colon);
    assert line == line[..k] + [Colon] + line[k + 1..];
  }

  /** A key without colons followed by a colon splits back into that key and the whole rest, colons included. */
  lemma SplitColonOf(k: seq<Byte>, v: seq<Byte>)
    requires Colon !in k
    ensures SplitColon(k + [Colon] + v) == Some((k, v))
  {
    var line := k + [Colon] + v;
    assert line[|k|] == Colon;
    assert forall i :: 0 <= i < |k| ==> line[i] == k[i];
    assert line[..|k|] == k && line[|k| + 1..] == v;
  }

  /** What one output line contributes. */
  datatype LineKind = NoPair | Undecodable | Pair(key: string, value: string)

  /**
   * A line with a colon gives the stripped, decoded bytes on either side;
   * if either does not decode, the decoding error escapes.
   */
  function Classify(line: seq<Byte>, decode: seq<Byte> -> Option<string>): (c: LineKind)
    ensures c.NoPair? <==> Colon !in line
  {
    match SplitColon(line)
    case None => NoPair
    case Some((k, v)) =>
      match (decode(Strip(k)), decode(Strip(v)))
      case (Some(key), Some(value)) => Pair(key, value)
      case _ => Undecodable
  }

  /** A line `key:value` gives the decoded, stripped key and value, whatever colons the value holds. */
  lemma ClassifyPair(k: seq<Byte>, v: seq<Byte>, decode: seq<Byte> -> Option<string>)
    requires Colon !in k
    ensures decode(Strip(k)).Some? && decode(Strip(v)).Some? ==>
      Classify(k + [Colon] + v, decode) == Pair(decode(Strip(k)).value, decode(Strip(v)).value)
    ensures decode(Strip(k)).None? || decode(Strip(v)).None? ==> Classify(k + [Colon] + v, decode) == Undecodable
  {
    SplitColonOf(k, v);
  }

  predicate PairFor(line: seq<Byte>, decode: seq<Byte> -> Option<string>, key: string)
  {
    Classify(line, decode).Pair? && Classify(line, decode).key == key
  }

  predicate UndecodableLine(line: seq<Byte>, decode: seq<Byte> -> Option<string>)
  {
    Classify(line, decode).Undecodable?
  }

  /** Some line has a colon but does not decode. */
  predicate AnyUndecodable(lines: seq<seq<Byte>>, decode: seq<Byte> -> Option<string>)
  {
    exists i :: 0 <= i < |lines| && UndecodableLine(lines[i], decode)
  }

  /** Some line carries the key. */
  predicate Carries(lines: seq<seq<Byte>>, decode: seq<Byte> -> Option<string>, key: string)
  {
    exists i :: 0 <= i < |lines| && PairFor(lines[i], decode, key)
  }

  /** The loop over the lines: each pair overwrites the key's earlier value. */
  function Collect(lines: seq<seq<Byte>>, decode: seq<Byte> -> Option<string>): Result<map<string, string>>
    decreases |lines|
  {
    if |lines| == 0 then Ok(map[])
    else
      match Collect(lines[..|lines| - 1], decode)
      case Err(e) => Err(e)
      case Ok(m) =>
        match Classify(lines[|lines| - 1], decode)
        case NoPair => Ok(m)
        case Undecodable => Err(ValueError)
        case Pair(k, v) => Ok(m[k := v])
  }

  /** A failure is always the decoding error. */
  lemma {:induction false} CollectErrIsDecoding(lines: seq<seq<Byte>>, decode: seq<Byte> -> Option<string>)
    ensures Collect(lines, decode).Err? ==> Collect(lines, decode).error == ValueError
    decreases |lines|
  {
    if |lines| > 0 {
      CollectErrIsDecoding(lines[..|lines| - 1], decode);
    }
  }

  /** The parse fails exactly when some line with a colon does not decode. */
  lemma {:induction false} CollectFailsIff(lines: seq<seq<Byte>>, decode: seq<Byte> -> Option<string>)
    ensures Collect(lines, decode).Err? <==> AnyUndecodable(lines, decode)
    decreases |lines|
  {
    if |lines| > 0 {
      var front := lines[..|lines| - 1];
      CollectFailsIff(front, decode);
      ExistsSplitLast(lines, front, l => UndecodableLine(l, decode));
    }
  }

  /** A key is present exactly when some line carries it. */
  lemma {:induction false} CollectKeys(lines: seq<seq<Byte>>, decode: seq<Byte> -> Option<string>, key: string)
    requires Collect(lines, decode).Ok?
    ensures key in Collect(lines, decode).value <==> Carries(lines, decode, key)
    decreases |lines|
  {
    if |lines| > 0 {
      var front := lines[..|lines| - 1];
      CollectKeys(front, decode, key);
      ExistsSplitLast(lines, front, l => PairFor(l, decode, key));
    }
  }

  /** A key's value comes from the last line that carries it. */
  lemma {:induction false} CollectLastWins(lines: seq<seq<Byte>>, decode: seq<Byte> -> Option<string>, i: nat)
    requires Collect(lines, decode).Ok?
    requires i < |lines| && Classify(lines[i], decode).Pair?
    requires forall j :: i < j < |lines| ==> !PairFor(lines[j], decode, Classify(lines[i], decode).key)
    ensures var c := Classify(lines[i], decode); c.key in Collect(lines, decode).value && Collect(lines, decode).value[c.key] == c.value
    decreases |lines|
  {
    var front := lines[..|lines| - 1];
    if i < |lines| - 1 {
      assert front[i] == lines[i];
      forall j | i < j < |front| ensures !PairFor(front[j], decode, Classify(front[i], decode).key) {
        assert front[j] == lines[j];
      }
      CollectLastWins(front, decode, i);
      assert !PairFor(lines[|lines| - 1], decode, Classify(lines[i], decode).key);
    }
  }

  /**
   * `spiralBuildInfo`: an empty dictionary when Spiral cannot be launched,
   * otherwise the pairs of the `\n`-separated lines of its standard output.
   */
  function SpiralBuildInfo(stdout: Option<seq<Byte>>, decode: seq<Byte> -> Option<string>): (r: Result<map<string, string>>)
    ensures stdout.None? ==> r == Ok(map[])
    ensures stdout.Some? ==> (r.Err? <==> AnyUndecodable(Split(stdout.value, Newline), decode))
    ensures r.Err? ==> r.error == ValueError
  {
    if stdout.None? then Ok(map[])
    else
      var lines := Split(stdout.value, Newline);
      CollectFailsIff(lines, decode);
      CollectErrIsDecoding(lines, decode);
      Collect(lines, decode)
  }

  /** A key is in the build information exactly when some output line carries it. */
  lemma BuildInfoKeys(out: seq<Byte>, decode: seq<Byte> -> Option<string>, key: string)
    requires SpiralBuildInfo(Some(out), decode).Ok?
    ensures key in SpiralBuildInfo(Some(out), decode).value <==> Carries(Split(out, Newline), decode, key)
  {
    CollectKeys(Split(out, Newline), decode, key);
  }

  /** The value of a key is that of the last output line carrying it. */
  lemma BuildInfoLastWins(out: seq<Byte>, decode: seq<Byte> -> Option<string>, i: nat)
    requires SpiralBuildInfo(Some(out), decode).Ok?
    requires var lines := Split(out, Newline);
      && i < |lines| && Classify(lines[i], decode).Pair?
      && forall j :: i < j < |lines| ==> !PairFor(lines[j], decode, Classify(lines[i], decode).key)
    ensures var c := Classify(Split(out, Newline)[i], decode);
      c.key in SpiralBuildInfo(Some(out), decode).value && SpiralBuildInfo(Some(out), decode).value[c.key] == c.value
  {
    CollectLastWins(Split(out, Newline), decode, i);
  }
}
