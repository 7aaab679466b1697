/**
 * `metadata.py`: finding the metadata JSON a built library carries between
 * the two sentinels, collecting it from the `*.dll` files of a directory,
 * and writing the JSON as a C source file whose string literal puts it
 * there.
 *
 * JSON itself is not modelled: the reader hands the sliced bytes to a
 * `loads` parameter (which may fail, or yield JSON `null` as None), and the
 * writer takes the text `json.dumps` produced.
 */
module Metadata {
  import opened Common
  import opened Text
  import opened Config
  import opened CSource

  predicate IsAscii(s: string)
  {
    forall i :: 0 <= i < |s| ==> s[i] as int < 128
  }

  /** `s.encode('utf-8')` for ASCII text: one byte per character, its code. */
  function Utf8(s: string): (b: seq<Byte>)
    requires IsAscii(s)
    ensures |b| == |s| && forall i :: 0 <= i < |s| ==> b[i] == s[i] as int
  {
    seq(|s|, i requires 0 <= i < |s| => s[i] as int)
  }

  /** Encoding is injective: the bytes give the text back. */
  lemma Utf8Injective(a: string, b: string)
    requires IsAscii(a) && IsAscii(b) && Utf8(a) == Utf8(b)
    ensures a == b
  {
    assert |a| == |b|;
    forall i | 0 <= i < |a| ensures a[i] == b[i] {
      assert Utf8(a)[i] == Utf8(b)[i];
    }
  }

  lemma Utf8Append(a: string, b: string)
    requires IsAscii(a) && IsAscii(b)
    ensures IsAscii(a + b) && Utf8(a + b) == Utf8(a) + Utf8(b)
  {
    assert IsAscii(a + b) by {
      forall i | 0 <= i < |a + b| ensures (a + b)[i] as int < 128 {
        if i < |a| { assert (a + b)[i] == a[i]; } else { assert (a + b)[i] == b[i - |a|]; }
      }
    }
  }

  /** The sentinels are ASCII, and read as themselves in a C literal. */
  lemma SentinelsPlain()
    ensures IsAscii(MetadataStart) && IsAscii(MetadataEnd)
    ensures Plain(MetadataStart) && Plain(MetadataEnd)
  {
  }

  const StartBytes: seq<Byte> := Utf8(MetadataStart)
  const EndBytes: seq<Byte> := Utf8(MetadataEnd)

  /**
   * `buff[b:e]` for b just past the first `sb` and e the first `eb`, or
   * None when `sb` does not occur.  `find` yields -1 when `eb` is absent,
   * and the slice then drops only the final byte.
   */
  function SliceBetween(buff: seq<Byte>, sb: seq<Byte>, eb: seq<Byte>): (r: Option<seq<Byte>>)
    ensures r.None? <==> !Contains(buff, sb)
  {
    if Contains(buff, sb) then
      var b := Find(buff, sb) + |sb|;
      var e := Find(buff, eb);
      Some(PySlice(buff, b, e))
    else None
  }

  /** The slice `metadataInFile` takes between the encoded sentinels. */
  function MetaSlice(buff: seq<Byte>): (r: Option<seq<Byte>>)
    ensures r.None? <==> !Contains(buff, StartBytes)
  {
    SliceBetween(buff, StartBytes, EndBytes)
  }

  /** Bytes framed by two markers, where those are their first occurrences, are what the slice holds. */
  lemma SliceBetweenFramed(pre: seq<Byte>, sb: seq<Byte>, d: seq<Byte>, eb: seq<Byte>, post: seq<Byte>)
    requires FirstAt(pre + sb + d + eb + post, sb, |pre|)
    requires FirstAt(pre + sb + d + eb + post, eb, |pre| + |sb| + |d|)
    ensures SliceBetween(pre + sb + d + eb + post, sb, eb) == Some(d)
  {
    var buff := pre + sb + d + eb + post;
    var b := |pre| + |sb|;
    assert buff[b..b + |d|] == d by {
      assert buff == (pre + sb) + d + (eb + post);
    }
    FindFirst(buff, sb, |pre|);
    FindFirst(buff, eb, b + |d|);
    PySliceInRange(buff, b, b + |d|);
  }

  /** With both sentinels in order, the slice is exactly the bytes between them. */
  lemma MetaSliceBetween(buff: seq<Byte>, s: int, e: int)
    requires FirstAt(buff, StartBytes, s) && FirstAt(buff, EndBytes, e)
    requires s + |StartBytes| <= e
    ensures MetaSlice(buff) == Some(buff[s + |StartBytes|..e])
  {
    assert 0 <= s <= |buff| && OccursAt(buff, StartBytes, s);
    FindFirst(buff, StartBytes, s);
    FindFirst(buff, EndBytes, e);
    assert e + |EndBytes| <= |buff|;
    PySliceInRange(buff, s + |StartBytes|, e);
  }

  /** Without an end sentinel, the slice runs to the last byte but one. */
  lemma MetaSliceNoEnd(buff: seq<Byte>, s: int)
    requires FirstAt(buff, StartBytes, s) && !Contains(buff, EndBytes)
    ensures MetaSlice(buff) == Some(if s + |StartBytes| < |buff| then buff[s + |StartBytes|..|buff| - 1] else [])
  {
    assert 0 <= s <= |buff| && OccursAt(buff, StartBytes, s);
    FindFirst(buff, StartBytes, s);
    assert Find(buff, EndBytes) == -1;
    if s + |StartBytes| < |buff| {
      PySliceInRange(buff, s + |StartBytes|, |buff| - 1);
      assert SliceBound(-1, |buff|) == |buff| - 1;
    }
  }

  /** An end sentinel that starts before the start sentinel's end gives an empty slice. */
  lemma MetaSliceEndFirst(buff: seq<Byte>, s: int, e: int)
    requires FirstAt(buff, StartBytes, s) && FirstAt(buff, EndBytes, e)
    requires e < s + |StartBytes|
    ensures MetaSlice(buff) == Some([])
  {
    FindFirst(buff, StartBytes, s);
    FindFirst(buff, EndBytes, e);
  }

  /**
   * `metadataInFile`: None without a start sentinel, otherwise what `loads`
   * makes of the slice (an exception from it propagates).
   */
  function MetadataInFile<J>(buff: seq<Byte>, loads: seq<Byte> -> Result<Option<J>>): (r: Result<Option<J>>)
    ensures !Contains(buff, StartBytes) ==> r == Ok(None)
  {
    match MetaSlice(buff)
    case None => Ok(None)
    case Some(m) => loads(m)
  }

  /** A file as the directory listing presents it. */
  datatype DirEntry = DirEntry(name: string, contents: seq<Byte>)

  datatype Found<J> = Found(filename: string, metadata: J)

  /** glob's `*.dll`: names ending in ".dll"; '*' does not match a leading '.'. */
  predicate IsDll(name: string)
  {
    |name| >= 4 && name[0] != '.' && EndsWith(name, ".dll")
  }

  /** `os.path.join(path, name)` on POSIX for a relative name. */
  function PathJoin(path: string, name: string): string
  {
    if |path| == 0 || path[|path| - 1] == '/' then path + name else path + "/" + name
  }

  /** The entry is a `*.dll` file whose metadata loads to something other than None. */
  predicate HasMetadata<J>(e: DirEntry, loads: seq<Byte> -> Result<Option<J>>)
  {
    IsDll(e.name) && MetadataInFile(e.contents, loads).Ok? && MetadataInFile(e.contents, loads).value.Some?
  }

  /**
   * The reference result of `metadataInDir`, file by file in listing order:
   * the first exception stops the scan.
   */
  function Collect<J>(path: string, es: seq<DirEntry>, loads: seq<Byte> -> Result<Option<J>>): Result<seq<Found<J>>>
  {
    if |es| == 0 then Ok([])
    else
      var found :- Collect(path, es[..|es| - 1], loads);
      var e := es[|es| - 1];
      if !IsDll(e.name) then Ok(found)
      else
        var m :- MetadataInFile(e.contents, loads);
        if m.Some? then Ok(found + [Found(PathJoin(path, e.name), m.value)]) else Ok(found)
  }

  /** A failure in a prefix of the listing is the failure of the whole scan. */
  lemma {:induction false} CollectErrPersists<J>(path: string, es: seq<DirEntry>, i: nat, loads: seq<Byte> -> Result<Option<J>>)
    requires i <= |es| && Collect(path, es[..i], loads).Err?
    ensures Collect(path, es, loads) == Collect(path, es[..i], loads)
    decreases |es| - i
  {
    if i < |es| {
      assert es[..i + 1][..i] == es[..i];
      assert Collect(path, es[..i + 1], loads) == Collect(path, es[..i], loads);
      CollectErrPersists(path, es, i + 1, loads);
    } else {
      assert es[..i] == es;
    }
  }

  /** `metadataInDir` over a directory listing, as the loop in the source. */
  method MetadataInDir<J>(path: string, es: seq<DirEntry>, loads: seq<Byte> -> Result<Option<J>>)
    returns (r: Result<seq<Found<J>>>)
    ensures r == Collect(path, es, loads)
  {
    var found: seq<Found<J>> := [];
    var i := 0;
    while i < |es|
      invariant 0 <= i <= |es|
      invariant Collect(path, es[..i], loads) == Ok(found)
    {
      var e := es[i];
      assert es[..i + 1][..i] == es[..i] && es[..i + 1][i] == e;
      if IsDll(e.name) {
        var m := MetadataInFile(e.contents, loads);
        if m.Err? {
          CollectErrPersists(path, es, i + 1, loads);
          return Err(m.error);
        }
        if m.value.Some? {
          found := found + [Found(PathJoin(path, e.name), m.value.value)];
        }
      }
      i := i + 1;
    }
    assert es[..|es|] == es;
    r := Ok(found);
  }

  /** The entries the scan reports, in listing order. */
  function Listed<J>(es: seq<DirEntry>, loads: seq<Byte> -> Result<Option<J>>): (r: seq<DirEntry>)
    ensures forall k :: 0 <= k < |r| ==> HasMetadata(r[k], loads) && r[k] in es
    ensures forall e :: e in es && HasMetadata(e, loads) ==> e in r
  {
    if |es| == 0 then []
    else
      var front := Listed(es[..|es| - 1], loads);
      assert forall e :: e in es[..|es| - 1] ==> e in es;
      assert forall e :: e in es ==> e in es[..|es| - 1] || e == es[|es| - 1];
      if HasMetadata(es[|es| - 1], loads) then front + [es[|es| - 1]] else front
  }

  /** A `*.dll` file on which `loads` raises. */
  predicate LoadFails<J>(e: DirEntry, loads: seq<Byte> -> Result<Option<J>>)
  {
    IsDll(e.name) && MetadataInFile(e.contents, loads).Err?
  }

  /** The scan fails exactly when `loads` raises on some `*.dll` file of the listing. */
  lemma {:induction false} CollectFailsIff<J>(path: string, es: seq<DirEntry>, loads: seq<Byte> -> Result<Option<J>>)
    ensures Collect(path, es, loads).Err? <==> exists i :: 0 <= i < |es| && LoadFails(es[i], loads)
  {
    if |es| > 0 {
      var front := es[..|es| - 1];
      CollectFailsIff(path, front, loads);
      assert Collect(path, es, loads).Err? <==> Collect(path, front, loads).Err? || LoadFails(es[|es| - 1], loads);
      ExistsSplitLast(es, front, e => LoadFails(e, loads));
    }
  }

  /**
   * A successful scan reports exactly the listed entries, in listing order,
   * each under its joined path with its loaded metadata.
   */
  lemma {:induction false} CollectReportsListed<J>(path: string, es: seq<DirEntry>, loads: seq<Byte> -> Result<Option<J>>)
    requires Collect(path, es, loads).Ok?
    ensures var found, listed := Collect(path, es, loads).value, Listed(es, loads);
      |found| == |listed| &&
      forall k :: 0 <= k < |found| ==>
        found[k] == Found(PathJoin(path, listed[k].name), MetadataInFile(listed[k].contents, loads).value.value)
  {
    if |es| > 0 {
      CollectReportsListed(path, es[..|es| - 1], loads);
    }
  }

  /** JSON text → C string-literal body: `"` becomes `\"`, then a backslash is appended and every new-line spliced. */
  function EscapeAsWritten(json: string): string
  {
    Replace(Replace(json, '"', "\\\"") + "\\", '\n', "\\\n")
  }

  /** The same with backslashes doubled first, so that the compiler reads every character back. */
  function Escape(json: string): string
  {
    Replace(Replace(Replace(json, '\\', "\\\\"), '"', "\\\"") + "\\", '\n', "\\\n")
  }

  /** On JSON text without backslashes the two escapings agree. */
  lemma EscapeAgreesWithoutBackslash(json: string)
    requires '\\' !in json
    ensures Escape(json) == EscapeAsWritten(json)
  {
    ReplaceAbsent(json, '\\', "\\\\");
  }

  /** The characters between the literal's quotes, as the three `print` calls lay them out. */
  function LiteralBody(metastr: string): string
  {
    MetadataStart + "\\\n" + metastr + "\n" + MetadataEnd
  }

  /** What the writer leaves behind. */
  datatype Written = NotOpened(message: string) | Wrote(text: string)

  /** The declaration of `varname` initialised with the literal around `metastr`, as the three `print` calls write it. */
  function Declaration(varname: string, metastr: string): (text: string)
    ensures text == "char *" + varname + " = \"" + LiteralBody(metastr) + "\";\n"
  {
    var line1 := "char *" + varname + " = \"" + MetadataStart + "\\";
    var line3 := MetadataEnd + "\";";
    var text := line1 + "\n" + metastr + "\n" + line3 + "\n";
    assert text == "char *" + varname + " = \"" + LiteralBody(metastr) + "\";\n";
    text
  }

  /** An unopenable path prints an error and writes nothing; otherwise the declaration is written. */
  function WriteLiteral(metastr: string, varname: string, path: string, canOpen: bool): (w: Written)
    ensures w.NotOpened? <==> !canOpen
    ensures w.NotOpened? ==> w.message == "Error: Could not open " + path + " for writing"
    ensures w.Wrote? ==> w.text == Declaration(varname, metastr)
  {
    if !canOpen then NotOpened("Error: Could not open " + path + " for writing")
    else Wrote(Declaration(varname, metastr))
  }

  /**
   * `writeMetadataSourceFile` as the source writes it: only the quotes of
   * the JSON text are escaped.  An unopenable path writes nothing.
   */
  function WriteMetadataSourceFile(json: string, varname: string, path: string, canOpen: bool): (w: Written)
    ensures w.NotOpened? <==> !canOpen
    ensures w.NotOpened? ==> w.message == "Error: Could not open " + path + " for writing"
    ensures w.Wrote? ==> w.text == Declaration(varname, EscapeAsWritten(json))
  {
    WriteLiteral(EscapeAsWritten(json), varname, path, canOpen)
  }

  /** The writer with backslashes doubled before the quotes are escaped. */
  function WriteMetadataSourceFileFixed(json: string, varname: string, path: string, canOpen: bool): (w: Written)
    ensures w.NotOpened? <==> !canOpen
    ensures w.NotOpened? ==> w.message == "Error: Could not open " + path + " for writing"
    ensures w.Wrote? ==> w.text == Declaration(varname, Escape(json))
  {
    WriteLiteral(Escape(json), varname, path, canOpen)
  }

  /** On JSON text without backslashes the two writers write the same file. */
  lemma WritersAgreeWithoutBackslash(json: string, varname: string, path: string, canOpen: bool)
    requires '\\' !in json
    ensures WriteMetadataSourceFile(json, varname, path, canOpen) == WriteMetadataSourceFileFixed(json, varname, path, canOpen)
  {
    EscapeAgreesWithoutBackslash(json);
  }

  /** The characters the compiled literal holds. */
  function StoredValue(metastr: string): Option<string>
  {
    Unescape(Splice(LiteralBody(metastr)))
  }

  /** The two characters the writer puts in place of every new-line. */
  const Continued: string := "\\\n"

  /** A one-character replacement never starts with a new-line when the new-line is replaced. */
  lemma ReplacedHead(z: string)
    ensures |Replace(z, '\n', Continued)| > 0 ==> Replace(z, '\n', Continued)[0] != '\n'
  {
  }

  /** Splicing undoes the writer's new-line replacement: the new-lines are simply gone. */
  lemma {:induction false} SpliceReplacedNewlines(y: string)
    ensures Splice(Replace(y, '\n', Continued)) == DropAll(y, '\n')
    decreases |y|
  {
    if |y| > 0 {
      var rest := Replace(y[1..], '\n', Continued);
      SpliceReplacedNewlines(y[1..]);
      if y[0] == '\n' {
        assert Replace(y, '\n', Continued) == Continued + rest;
        assert (Continued + rest)[2..] == rest;
      } else {
        var s := [y[0]] + rest;
        assert Replace(y, '\n', Continued) == s;
        ReplacedHead(y[1..]);
        assert |s| >= 2 ==> s[1] == rest[0];
        assert s[1..] == rest;
      }
    }
  }

  /** Replacing the new-lines of `a \n y \n e`, for a and e without new-lines. */
  lemma ReplaceFrame(a: string, y: string, e: string)
    requires '\n' !in a && '\n' !in e
    ensures Replace(a + "\n" + y + "\n" + e, '\n', Continued)
      == a + Continued + Replace(y, '\n', Continued) + Continued + e
  {
    ReplaceAppend(a + "\n" + y + "\n", e, '\n', Continued);
    ReplaceAppend(a + "\n" + y, "\n", '\n', Continued);
    ReplaceAppend(a + "\n", y, '\n', Continued);
    ReplaceAppend(a, "\n", '\n', Continued);
    ReplaceAbsent(a, '\n', Continued);
    ReplaceAbsent(e, '\n', Continued);
    assert Replace("\n", '\n', Continued) == Continued;
  }

  /** The literal's final continuation is the backslash the writer appends plus the new-line before the end sentinel. */
  lemma LiteralFrame(a: string, y: string, e: string)
    ensures a + Continued + Replace(y + "\\", '\n', Continued) + "\n" + e
      == a + Continued + Replace(y, '\n', Continued) + Continued + e
  {
    ReplaceAppend(y, "\\", '\n', Continued);
    assert Replace("\\", '\n', Continued) == "\\";
    var p := a + Continued + Replace(y, '\n', Continued);
    assert a + Continued + (Replace(y, '\n', Continued) + "\\") == p + "\\";
    assert p + "\\" + "\n" == p + Continued;
  }

  /** Dropping the new-lines of `a \n y \n e`, for a and e without new-lines. */
  lemma DropFrame(a: string, y: string, e: string)
    requires '\n' !in a && '\n' !in e
    ensures DropAll(a + "\n" + y + "\n" + e, '\n') == a + DropAll(y, '\n') + e
  {
    var p1 := a + "\n";
    var p2 := p1 + y;
    var p3 := p2 + "\n";
    assert DropAll("\n", '\n') == [];
    assert DropAll(p1, '\n') == a by {
      DropAllAppend(a, "\n", '\n');
      DropAllAbsent(a, '\n');
    }
    assert DropAll(p2, '\n') == a + DropAll(y, '\n') by {
      DropAllAppend(p1, y, '\n');
    }
    assert DropAll(p3, '\n') == a + DropAll(y, '\n') by {
      DropAllAppend(p2, "\n", '\n');
    }
    assert DropAll(p3 + e, '\n') == a + DropAll(y, '\n') + e by {
      DropAllAppend(p3, e, '\n');
      DropAllAbsent(e, '\n');
    }
  }

  /** Neither sentinel holds a new-line. */
  lemma SentinelsNoNewline()
    ensures '\n' !in MetadataStart && '\n' !in MetadataEnd
  {
    SentinelsPlain();
    assert forall i :: 0 <= i < |MetadataStart| ==> MetadataStart[i] != '\n';
    assert forall i :: 0 <= i < |MetadataEnd| ==> MetadataEnd[i] != '\n';
  }

  /** After splicing, the literal holds the sentinels around the JSON text without its new-lines. */
  lemma SplicedBody(y: string)
    ensures Splice(LiteralBody(Replace(y + "\\", '\n', Continued))) == MetadataStart + DropAll(y, '\n') + MetadataEnd
  {
    SentinelsNoNewline();
    var x := MetadataStart + "\n" + y + "\n" + MetadataEnd;
    LiteralFrame(MetadataStart, y, MetadataEnd);
    ReplaceFrame(MetadataStart, y, MetadataEnd);
    assert LiteralBody(Replace(y + "\\", '\n', Continued)) == Replace(x, '\n', Continued);
    SpliceReplacedNewlines(x);
    DropFrame(MetadataStart, y, MetadataEnd);
  }

  /** The C escape of one character: backslash and double quote get a backslash. */
  function QuoteChar(c: char): string
  {
    if c == '\\' then "\\\\" else if c == '"' then "\\\"" else [c]
  }

  /** Character-wise C escaping. */
  function Quote(s: string): string
  {
    if |s| == 0 then "" else QuoteChar(s[0]) + Quote(s[1..])
  }

  /** Doubling backslashes and then escaping quotes is character-wise escaping. */
  lemma {:induction false} ReplacesAreQuote(s: string)
    ensures Replace(Replace(s, '\\', "\\\\"), '"', "\\\"") == Quote(s)
  {
    if |s| > 0 {
      var head := if s[0] == '\\' then "\\\\" else [s[0]];
      assert Replace(s, '\\', "\\\\") == head + Replace(s[1..], '\\', "\\\\");
      ReplaceAppend(head, Replace(s[1..], '\\', "\\\\"), '"', "\\\"");
      ReplacesAreQuote(s[1..]);
      assert Replace(head, '"', "\\\"") == QuoteChar(s[0]);
    }
  }

  /** Escaping and dropping new-lines commute. */
  lemma {:induction false} QuoteDropNewlines(s: string)
    ensures DropAll(Quote(s), '\n') == Quote(DropAll(s, '\n'))
  {
    if |s| > 0 {
      QuoteDropNewlines(s[1..]);
      DropAllAppend(QuoteChar(s[0]), Quote(s[1..]), '\n');
      if s[0] == '\n' {
        assert DropAll(s, '\n') == DropAll(s[1..], '\n');
      } else {
        DropAllAbsent(QuoteChar(s[0]), '\n');
        assert DropAll(s, '\n') == [s[0]] + DropAll(s[1..], '\n');
        assert ([s[0]] + DropAll(s[1..], '\n'))[1..] == DropAll(s[1..], '\n');
      }
    }
  }

  /** One escaped character reads back as itself. */
  lemma UnescapeQuoteChar(c: char, rest: string)
    requires c != '\n'
    ensures Unescape(QuoteChar(c) + rest) == PrependTo([c], Unescape(rest))
  {
    var q := QuoteChar(c);
    if c == '\\' || c == '"' {
      assert (q + rest)[0] == '\\' && (q + rest)[1] == c && (q + rest)[2..] == rest;
    } else {
      assert (q + rest)[0] == c && (q + rest)[1..] == rest;
    }
  }

  /** The compiler reads an escaped text back, whatever follows it. */
  lemma {:induction false} UnescapeQuote(s: string, t: string)
    requires '\n' !in s
    ensures Unescape(Quote(s) + t) == PrependTo(s, Unescape(t))
  {
    if |s| == 0 {
      assert Quote(s) + t == t;
      if Unescape(t).Some? {
        assert s + Unescape(t).value == Unescape(t).value;
      }
    } else {
      assert Quote(s) + t == QuoteChar(s[0]) + (Quote(s[1..]) + t);
      UnescapeQuoteChar(s[0], Quote(s[1..]) + t);
      UnescapeQuote(s[1..], t);
      if Unescape(t).Some? {
        assert [s[0]] + (s[1..] + Unescape(t).value) == s + Unescape(t).value;
      }
    }
  }

  /** Escaped text between plain text reads back as itself. */
  lemma UnescapeFramed(a: string, s: string, e: string)
    requires Plain(a) && Plain(e) && '\n' !in s
    ensures Unescape(a + (Quote(s) + e)) == Some(a + s + e)
  {
    assert Unescape(Quote(s) + e) == Some(s + e) by {
      UnescapeQuote(s, e);
      UnescapePlain(e);
    }
    UnescapePlainPrefix(a, Quote(s) + e);
    assert a + (s + e) == a + s + e;
  }

  /**
   * Whatever the JSON text, the compiled literal holds it without its
   * new-lines between the two sentinels.
   */
  lemma StoredRoundTrip(json: string)
    ensures StoredValue(Escape(json)) == Some(MetadataStart + DropAll(json, '\n') + MetadataEnd)
  {
    var d := DropAll(json, '\n');
    assert Splice(LiteralBody(Escape(json))) == MetadataStart + (Quote(d) + MetadataEnd) by {
      ReplacesAreQuote(json);
      SplicedBody(Quote(json));
      QuoteDropNewlines(json);
    }
    assert '\n' !in d by {
      DropAllRemoves(json, '\n');
    }
    SentinelsPlain();
    UnescapeFramed(MetadataStart, d, MetadataEnd);
  }

  /** The source's escaping reads back correctly on JSON text without backslashes. */
  lemma StoredRoundTripAsWritten(json: string)
    requires '\\' !in json
    ensures StoredValue(EscapeAsWritten(json)) == Some(MetadataStart + DropAll(json, '\n') + MetadataEnd)
  {
    EscapeAgreesWithoutBackslash(json);
    StoredRoundTrip(json);
  }

  /** The corrected writer's file compiles to a literal holding the JSON text, new-lines dropped, between the sentinels. */
  lemma FixedWriterReadsBack(json: string, varname: string, path: string)
    ensures WriteMetadataSourceFileFixed(json, varname, path, true) == Wrote(Declaration(varname, Escape(json)))
    ensures StoredValue(Escape(json)) == Some(MetadataStart + DropAll(json, '\n') + MetadataEnd)
  {
    StoredRoundTrip(json);
  }

  /** The source's writer does the same for JSON text without backslashes. */
  lemma WriterReadsBackWithoutBackslash(json: string, varname: string, path: string)
    requires '\\' !in json
    ensures WriteMetadataSourceFile(json, varname, path, true) == Wrote(Declaration(varname, EscapeAsWritten(json)))
    ensures StoredValue(EscapeAsWritten(json)) == Some(MetadataStart + DropAll(json, '\n') + MetadataEnd)
  {
    StoredRoundTripAsWritten(json);
  }

  /** The JSON text of a string holding one backslash. */
  const OneBackslash: string := "\"\\\\\""

  /** What the source's quote escaping makes of the one-backslash string. */
  lemma OneBackslashQuoted()
    ensures Replace(OneBackslash, '"', "\\\"") == Quote("\"\\\"")
    ensures '\n' !in OneBackslash
  {
  }

  /**
   * The source's escaping of `"\\"` (a JSON string holding one backslash)
   * reads back as `"\"`: a backslash is lost, and the JSON string no longer
   * ends.
   */
  lemma AsWrittenLosesBackslash()
    ensures StoredValue(EscapeAsWritten(OneBackslash)) == Some(MetadataStart + "\"\\\"" + MetadataEnd)
    ensures StoredValue(EscapeAsWritten(OneBackslash)) != Some(MetadataStart + DropAll(OneBackslash, '\n') + MetadataEnd)
  {
    var read := "\"\\\"";
    var y := Replace(OneBackslash, '"', "\\\"");
    OneBackslashQuoted();
    assert Splice(LiteralBody(EscapeAsWritten(OneBackslash))) == MetadataStart + (Quote(read) + MetadataEnd) by {
      DropAllAbsent(y, '\n');
      SplicedBody(y);
    }
    assert StoredValue(EscapeAsWritten(OneBackslash)) == Some(MetadataStart + read + MetadataEnd) by {
      SentinelsPlain();
      UnescapeFramed(MetadataStart, read, MetadataEnd);
    }
    DropAllAbsent(OneBackslash, '\n');
    assert |MetadataStart + read + MetadataEnd| != |MetadataStart + OneBackslash + MetadataEnd|;
  }

  /** The file the source's writer produces for `"\\"` does not compile to the JSON text it was given. */
  lemma WriterLosesBackslash(varname: string, path: string)
    ensures WriteMetadataSourceFile(OneBackslash, varname, path, true) == Wrote(Declaration(varname, EscapeAsWritten(OneBackslash)))
    ensures StoredValue(EscapeAsWritten(OneBackslash)) != Some(MetadataStart + DropAll(OneBackslash, '\n') + MetadataEnd)
  {
    AsWrittenLosesBackslash();
  }


  /** Bytes framed by the two sentinels, where those are the first occurrences, are what the reader slices out. */
  lemma MetaSliceFramed(pre: seq<Byte>, d: seq<Byte>, post: seq<Byte>)
    requires FirstAt(pre + StartBytes + d + EndBytes + post, StartBytes, |pre|)
    requires FirstAt(pre + StartBytes + d + EndBytes + post, EndBytes, |pre| + |StartBytes| + |d|)
    ensures MetaSlice(pre + StartBytes + d + EndBytes + post) == Some(d)
  {
    SliceBetweenFramed(pre, StartBytes, d, EndBytes, post);
  }

  /** The stored text's bytes are the sentinels' bytes around the JSON's. */
  lemma StoredBytes(dj: string)
    requires IsAscii(dj)
    ensures IsAscii(MetadataStart + dj + MetadataEnd)
    ensures Utf8(MetadataStart + dj + MetadataEnd) == StartBytes + Utf8(dj) + EndBytes
  {
    SentinelsPlain();
    Utf8Append(MetadataStart, dj);
    Utf8Append(MetadataStart + dj, MetadataEnd);
  }

  /**
   * The library built from the written source carries the literal's
   * characters as bytes.  When the sentinels first occur where that
   * literal puts them, `metadataInFile` slices out exactly the JSON text
   * without its new-lines.
   */
  lemma LibraryReadBack(json: string, pre: seq<Byte>, post: seq<Byte>)
    requires IsAscii(DropAll(json, '\n'))
    requires var d := Utf8(DropAll(json, '\n'));
      && FirstAt(pre + StartBytes + d + EndBytes + post, StartBytes, |pre|)
      && FirstAt(pre + StartBytes + d + EndBytes + post, EndBytes, |pre| + |StartBytes| + |d|)
    ensures StoredValue(Escape(json)) == Some(MetadataStart + DropAll(json, '\n') + MetadataEnd)
    ensures var v := MetadataStart + DropAll(json, '\n') + MetadataEnd;
      IsAscii(v) && Utf8(v) == StartBytes + Utf8(DropAll(json, '\n')) + EndBytes
    ensures MetaSlice(pre + StartBytes + Utf8(DropAll(json, '\n')) + EndBytes + post) == Some(Utf8(DropAll(json, '\n')))
  {
    StoredRoundTrip(json);
    StoredBytes(DropAll(json, '\n'));
    MetaSliceFramed(pre, Utf8(DropAll(json, '\n')), post);
  }
}
