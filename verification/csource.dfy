/**
 * How a C compiler reads the body of a string literal, as far as the
 * metadata source file needs it: line splicing (translation phase 2,
 * section 5.1.1.2 of ISO/IEC 9899:2011) and the simple escape sequences of
 * section 6.4.4.4.  Octal, hexadecimal and universal-character escapes are
 * not decoded: a body using them is treated as unreadable.
 */
module CSource {
  import opened Common

  /** Translation phase 2: every backslash immediately followed by a new-line is deleted, in one pass. */
  function Splice(s: string): string
    decreases |s|
  {
    if |s| == 0 then ""
    else if |s| >= 2 && s[0] == '\\' && s[1] == '\n' then Splice(s[2..])
    else [s[0]] + Splice(s[1..])
  }

  /** The character a simple escape sequence `\c` stands for, if c starts one. */
  function SimpleEscape(c: char): (r: Option<char>)
    ensures c == '"' ==> r == Some('"')
    ensures c == '\\' ==> r == Some('\\')
    ensures c == 'n' ==> r == Some('\n')
  {
    match c
    case '\'' => Some('\'')
    case '"' => Some('"')
    case '?' => Some('?')
    case '\\' => Some('\\')
    case 'a' => Some(7 as char)
    case 'b' => Some(8 as char)
    case 'f' => Some(12 as char)
    case 'n' => Some('\n')
    case 'r' => Some('\r')
    case 't' => Some('\t')
    case 'v' => Some(11 as char)
    case _ => None
  }

  /**
   * The characters a string-literal body stands for.  None when the body is
   * not one literal body: an unescaped '"' would end the literal early, a
   * raw new-line cannot appear inside one, and a backslash must start an
   * escape sequence.
   */
  function Unescape(s: string): Option<string>
    decreases |s|
  {
    if |s| == 0 then Some("")
    else if s[0] == '"' || s[0] == '\n' then None
    else if s[0] == '\\' then
      if |s| == 1 then None
      else match SimpleEscape(s[1]) {
        case None => None
        case Some(c) =>
          match Unescape(s[2..]) {
            case None => None
            case Some(rest) => Some([c] + rest)
          }
      }
    else
      match Unescape(s[1..]) {
        case None => None
        case Some(rest) => Some([s[0]] + rest)
      }
  }

  /** `a` in front of a decoded body; an unreadable body stays unreadable. */
  function PrependTo(a: string, o: Option<string>): (r: Option<string>)
    ensures r.Some? <==> o.Some?
    ensures r.Some? ==> r.value == a + o.value
  {
    match o
    case None => None
    case Some(rest) => Some(a + rest)
  }

  /** Characters that read as themselves in a literal body and are never spliced. */
  predicate Plain(s: string)
  {
    forall i :: 0 <= i < |s| ==> s[i] != '\\' && s[i] != '"' && s[i] != '\n'
  }

  /** Splicing leaves text without backslashes unchanged. */
  lemma {:induction false} SpliceNoBackslash(s: string)
    requires '\\' !in s
    ensures Splice(s) == s
    decreases |s|
  {
    if |s| > 0 {
      assert s[0] != '\\';
      SpliceNoBackslash(s[1..]);
    }
  }

  /** A plain prefix splices independently of what follows it. */
  lemma {:induction false} SplicePlainPrefix(a: string, b: string)
    requires Plain(a)
    ensures Splice(a + b) == a + Splice(b)
    decreases |a|
  {
    if |a| > 0 {
      var s := a + b;
      assert s[0] == a[0] && a[0] != '\\';
      assert Splice(s) == [a[0]] + Splice(s[1..]);
      assert s[1..] == a[1..] + b;
      assert Plain(a[1..]) by {
        assert forall i :: 0 <= i < |a[1..]| ==> a[1..][i] == a[i + 1];
      }
      SplicePlainPrefix(a[1..], b);
      assert [a[0]] + (a[1..] + Splice(b)) == a + Splice(b);
    } else {
      assert a + b == b;
    }
  }

  /** A plain prefix reads as itself, whatever follows it. */
  lemma {:induction false} UnescapePlainPrefix(a: string, b: string)
    requires Plain(a)
    ensures Unescape(a + b) == PrependTo(a, Unescape(b))
    decreases |a|
  {
    if |a| > 0 {
      assert (a + b)[0] == a[0];
      assert (a + b)[1..] == a[1..] + b;
      assert a[0] != '\\' && a[0] != '"' && a[0] != '\n';
      UnescapePlainPrefix(a[1..], b);
      if Unescape(b).Some? {
        assert Unescape(a + b) == Some([a[0]] + Unescape(a[1..] + b).value);
        assert [a[0]] + (a[1..] + Unescape(b).value) == a + Unescape(b).value;
      }
    } else {
      assert a + b == b;
      if Unescape(b).Some? {
        assert a + Unescape(b).value == Unescape(b).value;
      }
    }
  }

  /** Plain text reads as itself. */
  lemma UnescapePlain(a: string)
    requires Plain(a)
    ensures Unescape(a) == Some(a)
  {
    UnescapePlainPrefix(a, "");
    assert a + "" == a;
  }
}
