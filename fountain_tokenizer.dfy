/**
  The Fountain external tokenizer of src/parser/tokenizer.js as the
  imperative code it is: a class whose only state is the `inBoneyard` flag,
  a `Token` method that scans with while loops and then advances Lezer's
  input stream and accepts a token, and the scanning loops it is built from.
  Every loop is proved to compute the function of module FountainScan that
  specifies it, and `Token` is proved to do exactly what `Scan` says.
*/
module FountainTokenizer {
  import opened Wrappers
  import opened FountainScan

  /** A token accepted on the input stream: its kind and the position it ends at. */
  datatype Accepted = Accepted(kind: TokenKind, end: nat)

  /**
    The part of Lezer's `InputStream` the tokenizer uses: `peek`, `advance`
    and `acceptToken`. The token accepted runs from where the tokenizer was
    called to the position when it is accepted.
  */
  class InputStream {
    const text: seq<CharCode>
    var pos: nat
    var accepted: Option<Accepted>

    constructor (text: seq<CharCode>, pos: nat)
      ensures this.text == text && this.pos == pos && accepted == None
    {
      this.text := text;
      this.pos := pos;
      accepted := None;
    }

    /** `input.peek(k)`. */
    function Peek(k: int): int
      reads this
    {
      Cursor(text, pos).Peek(k)
    }

    /** `input.advance(n)`. */
    method Advance(n: nat)
      modifies this`pos
      ensures pos == old(pos) + n
    {
      pos := pos + n;
    }

    /** `input.acceptToken(kind)`. */
    method AcceptToken(kind: TokenKind)
      modifies this`accepted
      ensures accepted == Some(Accepted(kind, pos))
    {
      accepted := Some(Accepted(kind, pos));
    }
  }

  /** The scan to the end of the line from offset `k` (the `while` over `peek` up to a newline or -1). */
  method FindLineEnd(c: Cursor, k: nat) returns (e: nat)
    ensures e == LineEnd(c, k)
  {
    e := k;
    while c.Peek(e) != Newline && c.Peek(e) != EndOfInput
      invariant k <= e <= LineEnd(c, k)
      decreases |c.text| - (c.start + e)
    {
      e := e + 1;
    }
  }

  /** The title-value scan: the rest of the line, then every following line indented by a tab or two spaces. */
  method ScanTitleValue(c: Cursor) returns (endPos: nat)
    ensures endPos == TitleValueEnd(c, LineEnd(c, 0))
  {
    endPos := FindLineEnd(c, 0);
    var lookahead := endPos;
    while c.Peek(lookahead) == Newline
      invariant endPos == lookahead && IsLineEnd(c.Peek(lookahead))
      invariant TitleValueEnd(c, lookahead) == TitleValueEnd(c, LineEnd(c, 0))
      decreases |c.text| - (c.start + lookahead)
    {
      var nextLineStart := lookahead + 1;
      var isTabIndented := c.Peek(nextLineStart) == Tab;
      var isSpaceIndented := c.Peek(nextLineStart) == Space && c.Peek(nextLineStart + 1) == Space;
      if isTabIndented || isSpaceIndented {
        var nextLineEnd := FindLineEnd(c, nextLineStart);
        endPos := nextLineEnd;
        lookahead := nextLineEnd;
      } else {
        break;
      }
    }
  }

  /** The `while (input.peek(pos) === space) pos++` loops. */
  method FindSpacesEnd(c: Cursor, k: int) returns (j: int)
    ensures j == SkipSpaces(c, k)
  {
    j := k;
    while c.Peek(j) == Space
      invariant k <= j && SkipSpaces(c, j) == SkipSpaces(c, k)
      decreases |c.text| - (c.start + j)
    {
      j := j + 1;
    }
  }

  /** The empty-line scan over leading spaces and tabs. */
  method FindBlanksEnd(c: Cursor) returns (scanPos: nat)
    ensures scanPos == SkipBlanks(c, 0)
  {
    scanPos := 0;
    while c.Peek(scanPos) == Space || c.Peek(scanPos) == Tab
      invariant SkipBlanks(c, scanPos) == SkipBlanks(c, 0)
      decreases |c.text| - (c.start + scanPos)
    {
      scanPos := scanPos + 1;
    }
  }

  /** Extending the scanned prefix by one offset: content before the first colon appears there exactly when that offset is not a space and no colon precedes it. */
  lemma ContentBeforeColonStep(c: Cursor, n: nat)
    ensures ContentBeforeColon(c, n + 1) ==
      (ContentBeforeColon(c, n) || (c.Peek(n) != Space && NoColonThrough(c, n)))
  {
    if ContentBeforeColon(c, n + 1) && !ContentBeforeColon(c, n) {
      var i :| 0 <= i < n + 1 && c.Peek(i) != Space && NoColonThrough(c, i);
      assert i == n;
    }
  }

  /** The title-key scan of the line: its end, its last colon, and whether content precedes its first colon. */
  method ScanTitleKeyLine(c: Cursor) returns (lineEnd: nat, colonPos: int, hasContentBeforeColon: bool)
    ensures lineEnd == LineEnd(c, 0)
    ensures colonPos == LastColon(c, lineEnd)
    ensures hasContentBeforeColon == ContentBeforeColon(c, lineEnd)
  {
    lineEnd, colonPos, hasContentBeforeColon := 0, -1, false;
    while !IsLineEnd(c.Peek(lineEnd))
      invariant lineEnd <= LineEnd(c, 0)
      invariant colonPos == LastColon(c, lineEnd)
      invariant hasContentBeforeColon == ContentBeforeColon(c, lineEnd)
      decreases |c.text| - (c.start + lineEnd)
    {
      var ch := c.Peek(lineEnd);
      if ch == Colon {
        colonPos := lineEnd;
      }
      if ch != Space && colonPos == -1 {
        hasContentBeforeColon := true;
        assert NoColonThrough(c, lineEnd);
      }
      ContentBeforeColonStep(c, lineEnd);
      lineEnd := lineEnd + 1;
    }
  }

  /** The scene-heading check: fill the lookahead buffer, then try each prefix in order. */
  method MatchScenePrefix(c: Cursor) returns (matched: Option<string>)
    ensures matched == ScenePrefix(c)
  {
    var buffer: seq<int> := [];
    var i := 0;
    while i < 10
      invariant i <= BufferLength(c) && buffer == Buffer(c)[..i]
    {
      var ch := c.Peek(i);
      if ch == EndOfInput {
        break;
      }
      buffer := buffer + [ch];
      i := i + 1;
    }
    assert buffer == Buffer(c);
    var k := 0;
    while k < |ScenePrefixes|
      invariant k <= |ScenePrefixes|
      invariant FirstMatch(buffer, ScenePrefixes[k..]) == ScenePrefix(c)
    {
      if StartsWith(buffer, ScenePrefixes[k]) {
        return Some(ScenePrefixes[k]);
      }
      assert ScenePrefixes[k..][1..] == ScenePrefixes[k + 1..];
      k := k + 1;
    }
    return None;
  }

  /** The `while (pos > start && input.peek(pos - 1) === space) pos--` loops. */
  method TrimTrailingSpaces(c: Cursor, k: nat) returns (j: nat)
    ensures j == TrimEnd(c, k)
  {
    j := k;
    while j > 0 && c.Peek(j - 1) == Space
      invariant TrimEnd(c, j) == TrimEnd(c, k)
    {
      j := j - 1;
    }
  }

  /** The facts the character/transition scan gathers about the line. */
  datatype LineFacts = LineFacts(
    scanEnd: nat, hasLowercase: bool, contentEnd: nat, parenPos: int, lineLastChar: int, lineHasContent: bool)

  /** The one-pass scan of the line before the character and transition checks. */
  method ScanCueLine(c: Cursor) returns (facts: LineFacts)
    ensures facts.scanEnd == LineEnd(c, 0)
    ensures facts.hasLowercase == HasLowercase(c, facts.scanEnd)
    ensures facts.contentEnd == TrimEnd(c, facts.scanEnd)
    ensures facts.parenPos == FirstParen(c, facts.scanEnd)
    ensures facts.lineHasContent == (facts.contentEnd > 0)
    ensures facts.lineHasContent ==> facts.lineLastChar == c.Peek(facts.contentEnd - 1)
  {
    var scanEnd, hasLowercase, contentEnd, parenPos, lineLastChar, lineHasContent := 0, false, 0, -1, EndOfInput, false;
    while !IsLineEnd(c.Peek(scanEnd))
      invariant scanEnd <= LineEnd(c, 0)
      invariant hasLowercase == HasLowercase(c, scanEnd)
      invariant contentEnd == TrimEnd(c, scanEnd)
      invariant parenPos == FirstParen(c, scanEnd)
      invariant lineHasContent == (contentEnd > 0)
      invariant lineHasContent ==> lineLastChar == c.Peek(contentEnd - 1)
      decreases |c.text| - (c.start + scanEnd)
    {
      var ch := c.Peek(scanEnd);
      if IsLower(ch) {
        hasLowercase := true;
      }
      if ch != Space {
        contentEnd := scanEnd + 1;
        lineLastChar := ch;
        lineHasContent := true;
      }
      if ch == LParen && parenPos == -1 {
        parenPos := scanEnd;
      }
      scanEnd := scanEnd + 1;
    }
    facts := LineFacts(scanEnd, hasLowercase, contentEnd, parenPos, lineLastChar, lineHasContent);
  }

  /** `isFollowedByNonBlankLine(endPos)`. */
  method IsFollowedByNonBlankLine(c: Cursor, endPos: int) returns (b: bool)
    ensures b == FollowedByNonBlankLine(c, endPos)
  {
    var pos := endPos;
    if c.Peek(pos) == CarriageReturn {
      pos := pos + 1;
    }
    if c.Peek(pos) == Newline {
      pos := pos + 1;
    }
    pos := FindSpacesEnd(c, pos);
    var nextChar := c.Peek(pos);
    b := nextChar != Newline && nextChar != EndOfInput;
  }

  /** The character, dual-character and transition checks at the end of `token`. */
  method ScanCue(c: Cursor) returns (t: Option<Token>)
    ensures t == CueToken(c)
  {
    var facts := ScanCueLine(c);
    if !facts.lineHasContent {
      return None;
    }
    var contentEnd := facts.contentEnd;
    var lineLastChar := facts.lineLastChar;
    var isDualDialogue := false;
    if c.Peek(contentEnd - 1) == Caret {
      isDualDialogue := true;
      contentEnd := TrimTrailingSpaces(c, contentEnd - 1);
      lineLastChar := c.Peek(contentEnd as int - 1);
    }
    t := DecideCue(c, facts, contentEnd, lineLastChar, isDualDialogue);
  }

  /** The checks after the line scan: forced `@` cue, lower case, transition, then character cue. */
  method DecideCue(c: Cursor, facts: LineFacts, contentEnd: nat, lineLastChar: int, isDualDialogue: bool)
    returns (t: Option<Token>)
    requires facts.scanEnd == LineEnd(c, 0)
    requires facts.hasLowercase == HasLowercase(c, facts.scanEnd)
    requires facts.parenPos == FirstParen(c, facts.scanEnd)
    requires lineLastChar == c.Peek(contentEnd as int - 1)
    ensures t == CueDecision(c, facts.scanEnd, contentEnd, isDualDialogue)
  {
    var preceded := PrecededByBlankLine(c);
    if c.Peek(0) == At {
      var followed := IsFollowedByNonBlankLine(c, facts.scanEnd);
      if preceded && followed {
        var characterNameEnd := TrimTrailingSpaces(c, if facts.parenPos != -1 then facts.parenPos else contentEnd);
        return Some(Token(Character, characterNameEnd));
      }
    }
    if facts.hasLowercase {
      return None;
    }
    if facts.scanEnd > 3 && c.Peek(contentEnd as int - 3) == UpperT && c.Peek(contentEnd as int - 2) == UpperO
      && c.Peek(contentEnd as int - 1) == Colon
    {
      return Some(Token(Transition, facts.scanEnd));
    }
    var startsWithTwoCaps := IsUpper(c.Peek(0)) && IsUpper(c.Peek(1));
    if startsWithTwoCaps && preceded {
      var followed := IsFollowedByNonBlankLine(c, facts.scanEnd);
      if followed {
        var extensionIsValid := facts.parenPos == -1 || lineLastChar == RParen;
        if extensionIsValid {
          var characterNameEnd := TrimTrailingSpaces(c, if facts.parenPos != -1 then facts.parenPos else contentEnd);
          if isDualDialogue {
            return Some(Token(DualCharacter, characterNameEnd));
          } else {
            return Some(Token(Character, characterNameEnd));
          }
        }
      }
    }
    return None;
  }

  /** The checks of `token` that apply only at the start of a line, in source order. */
  method ScanLineStart(c: Cursor, titleKeyShiftable: bool) returns (t: Option<Token>)
    ensures t == LineStartToken(c, titleKeyShiftable)
  {
    var scanPos := FindBlanksEnd(c);
    if c.Peek(scanPos) == Newline {
      return Some(Token(EmptyLine, scanPos + 1));
    }
    if c.Peek(0) == GreaterThanSign {
      return Some(Token(GreaterThan, 1));
    }
    if c.Peek(0) == EqualsSign && c.Peek(1) != EqualsSign {
      return Some(Token(SynopsisMark, 1));
    }
    if c.Peek(0) == EqualsSign && c.Peek(1) == EqualsSign && c.Peek(2) == EqualsSign {
      var nextChar := c.Peek(3);
      if nextChar == Newline || nextChar == EndOfInput {
        return Some(Token(PageBreak, 3));
      }
    }
    var lineEnd, colonPos, hasContentBeforeColon := ScanTitleKeyLine(c);
    if colonPos != -1 && hasContentBeforeColon && titleKeyShiftable {
      return Some(Token(TitleKey, colonPos + 1));
    }
    var prefix := MatchScenePrefix(c);
    if prefix.Some? {
      return Some(Token(SceneHeading, |prefix.value|));
    }
    if c.Peek(0) == Dot {
      var nextChar := c.Peek(1);
      if nextChar != Dot && nextChar != Newline && nextChar != EndOfInput && nextChar != Space {
        return Some(Token(SceneHeading, 1));
      }
    }
    if c.Peek(0) == Bang {
      return Some(Token(ForceActionMark, 1));
    }
    t := ScanCue(c);
  }

  class FountainTokenizer {
    /** Whether the position is inside a boneyard (a commented-out block). */
    var inBoneyard: bool

    constructor ()
      ensures !inBoneyard
    {
      inBoneyard := false;
    }

    /** Advance over `len` code units and accept a token of `kind`. */
    static method Emit(input: InputStream, kind: TokenKind, len: nat)
      modifies input
      ensures input.pos == old(input.pos) + len
      ensures input.accepted == Some(Accepted(kind, input.pos))
    {
      input.Advance(len);
      input.AcceptToken(kind);
    }

    /**
      `token(input, stack)`, with `stack.canShift(TitleValue)` and
      `stack.canShift(TitleKey)` given as the two flags. Either it accepts
      the token `Scan` names and advances over it, or it leaves the input
      alone; the boneyard flag becomes the one `Scan` names.
    */
    method Token(input: InputStream, titleValueShiftable: bool, titleKeyShiftable: bool)
      modifies this, input
      ensures var step := Scan(Cursor(input.text, old(input.pos)), old(inBoneyard), titleValueShiftable, titleKeyShiftable);
        inBoneyard == step.inBoneyard &&
        if step.token.None? then input.pos == old(input.pos) && input.accepted == old(input.accepted)
        else input.pos == old(input.pos) + step.token.value.len && input.accepted == Some(Accepted(step.token.value.kind, input.pos))
    {
      var c := Cursor(input.text, input.pos);
      if input.Peek(0) == Slash && input.Peek(1) == Asterisk {
        if !inBoneyard {
          inBoneyard := true;
          Emit(input, BoneStart, 2);
          return;
        }
      }
      if input.Peek(0) == Asterisk && input.Peek(1) == Slash {
        if inBoneyard {
          inBoneyard := false;
          Emit(input, BoneEnd, 2);
          return;
        }
      }
      if titleValueShiftable {
        var endPos := ScanTitleValue(c);
        Emit(input, TitleValue, endPos);
        return;
      }
      if input.Peek(0) == LessThanSign {
        var pos := FindSpacesEnd(c, 1);
        var nextChar := input.Peek(pos);
        if nextChar == Newline || nextChar == EndOfInput {
          Emit(input, LessThan, 1);
          return;
        }
      }
      var isStartOfLine := input.pos == 0 || input.Peek(-1) == Newline;
      if !isStartOfLine {
        return;
      }
      var t := ScanLineStart(c, titleKeyShiftable);
      if t.Some? {
        Emit(input, t.value.kind, t.value.len);
      }
    }
  }
}
