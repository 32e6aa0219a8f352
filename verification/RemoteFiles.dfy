/** Writing a remote file: the content travels as a quoted base64 word of a shell command, which
    decodes it into a temporary file and renames that. */
module RemoteFiles {
  import opened Common
  import opened Base64
  import opened ShellQuote

  type Files = map<string, seq<byte>>

  /** How far the remote command gets: the temporary file may fill up only in part, the rename may fail,
      and the decoder may receive no more than the first `sent` characters. */
  datatype Ending = CannotOpen | StopsAfter(written: seq<byte>) | CannotRename | PipeCut(sent: nat) | Completes

  /** The characters of an ASCII text, and back. */
  function Text(bytes: seq<byte>): (s: string)
    ensures |s| == |bytes| && forall i :: 0 <= i < |s| ==> s[i] as int == bytes[i]
  {
    seq(|bytes|, i requires 0 <= i < |bytes| => bytes[i] as char)
  }

  function Octets(s: string): (bytes: seq<byte>)
    ensures |bytes| == |s| && forall i :: 0 <= i < |s| && s[i] as int < 256 ==> bytes[i] == s[i] as int
  {
    seq(|s|, i requires 0 <= i < |s| => s[i] as int % 256)
  }

  /** The command that `write_file` sends. */
  function WriteFile(content: seq<byte>, path: string): string {
    WriteCommand(Text(Encoding(content)), path)
  }

  /** The shape `printf '%s' DATA | base64 -d > TMP && mv FROM TO`. */
  predicate IsWrite(tokens: seq<Token>) {
    && |tokens| == 12
    && tokens[0] == Word("printf") && tokens[1] == Word("%s") && tokens[2].Word? && tokens[3] == Pipe
    && tokens[4] == Word("base64") && tokens[5] == Word("-d") && tokens[6] == Redirect && tokens[7].Word?
    && tokens[8] == AndIf && tokens[9] == Word("mv") && tokens[10].Word? && tokens[11].Word?
  }

  function Renamed(fs: Files, from: string, to: string): Files {
    if from in fs then (fs - {from})[to := fs[from]] else fs
  }

  function Decoded(data: string): seq<byte> {
    Unpack(Sextets(Octets(data)))
  }

  /** What the remote machine does with a command of this shape, among plain files: the decoder's
      output goes to the redirection target, and the rename runs only if the decoder succeeded. The
      decoder cannot tell a text that was cut after whole quads from a complete one. */
  function Execute(tokens: seq<Token>, fs: Files, ending: Ending): Files {
    if !IsWrite(tokens) then fs
    else
      var data, tmp, from, to := tokens[2].text, tokens[7].text, tokens[10].text, tokens[11].text;
      match ending
      case CannotOpen => fs
      case StopsAfter(written) => fs[tmp := written]
      case CannotRename => fs[tmp := Decoded(data)]
      case PipeCut(sent) =>
        var received := data[..Min(sent, |data|)];
        var decoded := fs[tmp := Decoded(received)];
        if |received| % 4 == 0 then Renamed(decoded, from, to) else decoded
      case Completes => Renamed(fs[tmp := Decoded(data)], from, to)
  }

  lemma OctetsOfText(bytes: seq<byte>)
    ensures Octets(Text(bytes)) == bytes
  {
  }

  lemma OctetsOfCutText(bytes: seq<byte>, n: nat)
    requires n <= |bytes|
    ensures Octets(Text(bytes)[..n]) == bytes[..n]
  {
  }

  lemma {:induction false} StripNothing(s: seq<byte>)
    requires forall c :: c in s ==> !Foreign(c)
    ensures Strip(s) == s
  {
    if s != [] {
      assert s[0] in s;
      StripNothing(s[1..]);
      assert s == [s[0]] + s[1..];
    }
  }

  lemma DecodesBack(content: seq<byte>)
    ensures Decoded(Text(Encoding(content))) == content
  {
    OctetsOfText(Encoding(content));
    EncodingShape(content);
    StripNothing(Encoding(content));
    RoundTrip(content, Encoding(content));
  }

  /** The bytes of the whole quads among the first characters. */
  function FirstBytes(content: seq<byte>, chars: nat): seq<byte> {
    content[..Min(3 * (chars / 4), |content|)]
  }

  lemma DecodesFirstBytes(content: seq<byte>, n: nat)
    requires n <= |Encoding(content)| && n % 4 == 0
    ensures Decoded(Text(Encoding(content))[..n]) == FirstBytes(content, n)
  {
    OctetsOfCutText(Encoding(content), n);
    CutEncodingDecodes(content, n / 4);
  }

  /** The effect of the intended command. */
  lemma ExecuteTokens(data: string, path: string, fs: Files, ending: Ending)
    ensures var after, tmp := Execute(WriteTokens(data, path), fs, ending), path + ".rai_tmp";
            match ending
            case Completes => after == (fs - {tmp})[path := Decoded(data)]
            case PipeCut(sent) =>
              var received := data[..Min(sent, |data|)];
              if |received| % 4 == 0 then after == (fs - {tmp})[path := Decoded(received)]
              else after - {tmp} == fs - {tmp}
            case _ => after - {tmp} == fs - {tmp}
  {
    var tmp := path + ".rai_tmp";
    assert |tmp| == |path| + 8;
    assert IsWrite(WriteTokens(data, path));
  }

  /** Writing, for every content and every path: a completed write leaves exactly the content under the
      path and no temporary file; one that stops anywhere leaves every file but the temporary one as it
      was. The one gap is the pipe: cut after whole quads, it leaves the first bytes under the path. */
  lemma WriteIsAtomic(content: seq<byte>, path: string, fs: Files, ending: Ending)
    ensures var tokens, tmp := Tokens(WriteFile(content, path)), path + ".rai_tmp";
            && tokens.Some?
            && var after := Execute(tokens.value, fs, ending);
               match ending
               case Completes => after == (fs - {tmp})[path := content]
               case PipeCut(sent) =>
                 var n := Min(sent, |Encoding(content)|);
                 if n % 4 == 0 then after == (fs - {tmp})[path := FirstBytes(content, n)]
                 else after - {tmp} == fs - {tmp}
               case _ => after - {tmp} == fs - {tmp}
  {
    WriteCommandTokens(Text(Encoding(content)), path);
    DecodesBack(content);
    ExecuteTokens(Text(Encoding(content)), path, fs, ending);
    if ending.PipeCut? {
      var n := Min(ending.sent, |Encoding(content)|);
      if n % 4 == 0 {
        DecodesFirstBytes(content, n);
      }
    }
  }

  lemma FirstBytesAreAll(content: seq<byte>, sent: nat)
    ensures var n := Min(sent, |Encoding(content)|);
            n % 4 == 0 ==> (FirstBytes(content, n) == content <==> sent >= |Encoding(content)|)
  {
    EncodingLength(content);
  }

  /** The file has the content, or is as it was. */
  predicate AllOrNothing(before: Files, after: Files, path: string, content: seq<byte>) {
    || (path in after && after[path] == content)
    || ((path in after <==> path in before) && (path in before ==> after[path] == before[path]))
  }

  /** A write whose pipe is cut is all or nothing exactly when the cut is inside a quad or behind the whole
      text, or when the file held just those first bytes before. */
  lemma PipeCutIsAtomicIff(content: seq<byte>, path: string, fs: Files, sent: nat)
    ensures var tokens, n := Tokens(WriteFile(content, path)), Min(sent, |Encoding(content)|);
            && tokens.Some?
            && (AllOrNothing(fs, Execute(tokens.value, fs, PipeCut(sent)), path, content)
                <==> || n % 4 != 0 || sent >= |Encoding(content)|
                     || (path in fs && fs[path] == FirstBytes(content, n)))
  {
    var tmp := path + ".rai_tmp";
    assert |tmp| == |path| + 8;
    WriteIsAtomic(content, path, fs, PipeCut(sent));
    FirstBytesAreAll(content, sent);
    var after := Execute(Tokens(WriteFile(content, path)).value, fs, PipeCut(sent));
    assert path in after - {tmp} <==> path in after;
    assert path in fs - {tmp} <==> path in fs;
    if path in after && path in fs && after - {tmp} == fs - {tmp} {
      assert after[path] == (after - {tmp})[path] && fs[path] == (fs - {tmp})[path];
    }
  }

  /** Reading back: the remote encoder may break its output into lines, or add any other bytes outside
      the alphabet, without changing what is read. */
  method ReadFile(content: seq<byte>, output: seq<byte>) returns (read: seq<byte>)
    requires Strip(output) == Encoding(content)
    ensures read == content
  {
    read := DecodeBase64(output);
    RoundTrip(content, output);
  }
}
