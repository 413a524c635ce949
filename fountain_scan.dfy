/**
  What one call of the Fountain screenplay tokenizer (`FountainTokenizer.token`
  in src/parser/tokenizer.js) decides, as pure functions of the text, the
  position it is called at, the boneyard flag and the two parser-stack
  queries. The imperative tokenizer in module FountainTokenizer is proved
  to compute exactly `Scan`; the lemmas in module FountainProperties state
  what `Scan` promises.

  Offsets are relative to the call position, as with Lezer's `input.peek`.
*/
module FountainScan {
  import opened Wrappers

  // Character codes the tokenizer compares against.
  const Tab := 9
  const Newline := 10
  const CarriageReturn := 13
  const Space := 32
  const Bang := 33
  const LParen := 40
  const RParen := 41
  const Asterisk := 42
  const Dot := 46
  const Slash := 47
  const Colon := 58
  const LessThanSign := 60
  const EqualsSign := 61
  const GreaterThanSign := 62
  const At := 64
  const UpperA := 65
  const UpperO := 79
  const UpperT := 84
  const UpperZ := 90
  const Caret := 94
  const LowerA := 97
  const LowerZ := 122

  /** `input.peek` gives this outside the text. */
  const EndOfInput := -1

  /** A UTF-16 code unit, as Lezer's input stream hands them out. */
  type CharCode = c: int | 0 <= c < 0x1_0000

  /** The external tokens of the Fountain grammar this tokenizer can produce. */
  datatype TokenKind =
    | PageBreak | TitleKey | TitleValue | Character | Transition | SynopsisMark
    | SceneHeading | GreaterThan | LessThan | BoneStart | BoneEnd | EmptyLine
    | DualCharacter | ForceActionMark

  /** An accepted token: its kind and how many code units it covers from the call position. */
  datatype Token = Token(kind: TokenKind, len: nat)

  /** The outcome of one call: the token accepted, if any, and the new boneyard flag. */
  datatype Step = Step(token: Option<Token>, inBoneyard: bool)

  /** The document text and the position the tokenizer is called at. */
  datatype Cursor = Cursor(text: seq<CharCode>, start: nat) {
    /** `input.peek(k)`: the code `k` places from the call position, or -1 outside the text. */
    function Peek(k: int): (ch: int)
      ensures EndOfInput <= ch < 0x1_0000
    {
      if 0 <= start + k < |text| then text[start + k] else EndOfInput
    }
  }

  predicate IsLineEnd(ch: int) {
    ch == Newline || ch == EndOfInput
  }

  predicate IsUpper(ch: int) {
    UpperA <= ch <= UpperZ
  }

  predicate IsLower(ch: int) {
    LowerA <= ch <= LowerZ
  }

  /** The offset of the first newline or end of input at or after `k`. */
  function LineEnd(c: Cursor, k: nat): (e: nat)
    ensures k <= e && IsLineEnd(c.Peek(e))
    ensures forall j :: k <= j < e ==> !IsLineEnd(c.Peek(j))
    decreases |c.text| - (c.start + k)
  {
    if IsLineEnd(c.Peek(k)) then k else LineEnd(c, k + 1)
  }

  /** A line starting at offset `k` is indented by a tab or by two spaces. */
  predicate IsIndented(c: Cursor, k: int) {
    c.Peek(k) == Tab || (c.Peek(k) == Space && c.Peek(k + 1) == Space)
  }

  /** From the end `e` of a line, the end of the run of indented lines that follow it. */
  function TitleValueEnd(c: Cursor, e: nat): (r: nat)
    requires IsLineEnd(c.Peek(e))
    ensures e <= r && IsLineEnd(c.Peek(r))
    decreases |c.text| - (c.start + e)
  {
    if c.Peek(e) == Newline && IsIndented(c, e + 1) then TitleValueEnd(c, LineEnd(c, e + 1)) else e
  }

  /** The first offset at or after `k` that is neither a space nor a tab. */
  function SkipBlanks(c: Cursor, k: nat): (j: nat)
    ensures k <= j && c.Peek(j) != Space && c.Peek(j) != Tab
    ensures forall i :: k <= i < j ==> c.Peek(i) == Space || c.Peek(i) == Tab
    decreases |c.text| - (c.start + k)
  {
    if c.Peek(k) == Space || c.Peek(k) == Tab then SkipBlanks(c, k + 1) else k
  }

  /** The first offset at or after `k` that is not a space. */
  function SkipSpaces(c: Cursor, k: int): (j: int)
    ensures k <= j && c.Peek(j) != Space
    ensures forall i :: k <= i < j ==> c.Peek(i) == Space
    decreases |c.text| - (c.start + k)
  {
    if c.Peek(k) == Space then SkipSpaces(c, k + 1) else k
  }

  /** Whether the call position is the start of a line. */
  predicate AtLineStart(c: Cursor) {
    c.start == 0 || c.Peek(-1) == Newline
  }

  /** `<` followed by nothing but spaces up to the end of the line. */
  predicate LessThanAlone(c: Cursor) {
    c.Peek(0) == LessThanSign && IsLineEnd(c.Peek(SkipSpaces(c, 1)))
  }

  /** The offset of the last colon before offset `n`, or -1 when there is none. */
  function LastColon(c: Cursor, n: nat): (p: int)
    ensures -1 <= p < n
    ensures p == -1 ==> forall j :: 0 <= j < n ==> c.Peek(j) != Colon
    ensures p != -1 ==> c.Peek(p) == Colon && forall j :: p < j < n ==> c.Peek(j) != Colon
  {
    if n == 0 then -1 else if c.Peek(n - 1) == Colon then n - 1 else LastColon(c, n - 1)
  }

  /** No colon occurs at offsets `0..i`. */
  predicate NoColonThrough(c: Cursor, i: int) {
    forall j :: 0 <= j <= i ==> c.Peek(j) != Colon
  }

  /** Some character other than a space comes before the first colon among offsets below `n`. */
  predicate ContentBeforeColon(c: Cursor, n: nat) {
    exists i :: 0 <= i < n && c.Peek(i) != Space && NoColonThrough(c, i)
  }

  /** The prefixes of a scene heading, in the order they are tried. */
  const ScenePrefixes: seq<string> := ["INT./EXT.", "INT/EXT.", "INT.", "EXT.", "I/E."]

  function Codes(s: string): seq<int> {
    seq(|s|, i requires 0 <= i < |s| => s[i] as int)
  }

  /** How many codes the scene-heading lookahead buffer holds: up to 10, stopping at the end of input. */
  function BufferLength(c: Cursor): nat {
    if |c.text| <= c.start then 0 else if |c.text| - c.start < 10 then |c.text| - c.start else 10
  }

  /** `buffer`: the first codes from the call position, as the scene-heading check collects them. */
  function Buffer(c: Cursor): seq<int> {
    seq(BufferLength(c), i => c.Peek(i))
  }

  predicate StartsWith(buffer: seq<int>, prefix: string) {
    |prefix| <= |buffer| && buffer[..|prefix|] == Codes(prefix)
  }

  /** The first of `prefixes` that `buffer` starts with. */
  function FirstMatch(buffer: seq<int>, prefixes: seq<string>): (r: Option<string>)
    ensures r.Some? ==> r.value in prefixes && StartsWith(buffer, r.value)
    ensures r.None? ==> forall p :: p in prefixes ==> !StartsWith(buffer, p)
  {
    if prefixes == [] then None
    else if StartsWith(buffer, prefixes[0]) then Some(prefixes[0])
    else FirstMatch(buffer, prefixes[1..])
  }

  /** The scene-heading prefix the line starts with, if any. */
  function ScenePrefix(c: Cursor): Option<string> {
    FirstMatch(Buffer(c), ScenePrefixes)
  }

  /** A `.` that forces a scene heading: the next code is not `.`, a space, a newline or the end. */
  predicate ForcedSceneHeading(c: Cursor) {
    c.Peek(0) == Dot && c.Peek(1) != Dot && c.Peek(1) != Newline && c.Peek(1) != EndOfInput && c.Peek(1) != Space
  }

  /** Offset `k` moved back over the spaces just before it (never below 0). */
  function TrimEnd(c: Cursor, k: nat): (j: nat)
    ensures j <= k
    ensures j > 0 ==> c.Peek(j - 1) != Space
    ensures forall i :: j <= i < k ==> c.Peek(i) == Space
  {
    if k > 0 && c.Peek(k - 1) == Space then TrimEnd(c, k - 1) else k
  }

  /** The offset of the first `(` before offset `n`, or -1 when there is none. */
  function FirstParen(c: Cursor, n: nat): (p: int)
    ensures -1 <= p < n
    ensures p == -1 ==> forall j :: 0 <= j < n ==> c.Peek(j) != LParen
    ensures p != -1 ==> c.Peek(p) == LParen && forall j :: 0 <= j < p ==> c.Peek(j) != LParen
  {
    if n == 0 then -1
    else
      var p := FirstParen(c, n - 1);
      if p != -1 then p else if c.Peek(n - 1) == LParen then n - 1 else -1
  }

  /** Some lower-case ASCII letter occurs among offsets below `n`. */
  predicate HasLowercase(c: Cursor, n: nat) {
    exists i :: 0 <= i < n && IsLower(c.Peek(i))
  }

  /** `isPrecededByBlankLine`: the text starts here, or the line before is empty (a CR before the newline allowed). */
  predicate PrecededByBlankLine(c: Cursor) {
    c.start == 0 ||
    var prev := c.Peek(-2);
    (if prev == CarriageReturn then c.Peek(-3) else prev) == Newline
  }

  /** `isFollowedByNonBlankLine(e)`: after the line break at `e`, the next line holds something besides spaces. */
  predicate FollowedByNonBlankLine(c: Cursor, e: int) {
    var afterReturn := if c.Peek(e) == CarriageReturn then e + 1 else e;
    var afterNewline := if c.Peek(afterReturn) == Newline then afterReturn + 1 else afterReturn;
    !IsLineEnd(c.Peek(SkipSpaces(c, afterNewline)))
  }

  /** One past the last non-space code of the line (0 when the line holds only spaces). */
  function ContentEnd(c: Cursor): nat {
    TrimEnd(c, LineEnd(c, 0))
  }

  /** The line's last non-space code is the dual-dialogue caret `^`. */
  predicate IsDual(c: Cursor) {
    ContentEnd(c) > 0 && c.Peek(ContentEnd(c) - 1) == Caret
  }

  /** Where the cue's content ends: before the caret and the spaces before it on a dual line. */
  function CueEnd(c: Cursor): nat {
    if IsDual(c) then TrimEnd(c, ContentEnd(c) - 1) else ContentEnd(c)
  }

  /** The character and transition decisions at the end of `token`, at the start of a line. */
  function CueToken(c: Cursor): Option<Token> {
    if ContentEnd(c) == 0 then None else CueDecision(c, LineEnd(c, 0), CueEnd(c), IsDual(c))
  }

  /**
    The decisions on a line ending at `e` with some content, whose content
    ends at `end` once a dual-dialogue caret (`dual`) is dropped.
  */
  function CueDecision(c: Cursor, e: nat, end: nat, dual: bool): Option<Token> {
    var paren := FirstParen(c, e);
    var nameEnd := TrimEnd(c, if paren != -1 then paren else end);
    var isCueContext := PrecededByBlankLine(c) && FollowedByNonBlankLine(c, e);
    if c.Peek(0) == At && isCueContext then Some(Token(Character, nameEnd))
    else if HasLowercase(c, e) then None
    else if e > 3 && c.Peek(end - 3) == UpperT && c.Peek(end - 2) == UpperO && c.Peek(end - 1) == Colon then
      Some(Token(Transition, e))
    else if IsUpper(c.Peek(0)) && IsUpper(c.Peek(1)) && isCueContext && (paren == -1 || c.Peek(end - 1) == RParen) then
      Some(Token(if dual then DualCharacter else Character, nameEnd))
    else None
  }

  /** The decisions `token` makes once it knows it is at the start of a line. */
  function LineStartToken(c: Cursor, titleKeyShiftable: bool): Option<Token> {
    var blanks := SkipBlanks(c, 0);
    if c.Peek(blanks) == Newline then Some(Token(EmptyLine, blanks + 1))
    else if c.Peek(0) == GreaterThanSign then Some(Token(GreaterThan, 1))
    else if c.Peek(0) == EqualsSign && c.Peek(1) != EqualsSign then Some(Token(SynopsisMark, 1))
    else if c.Peek(0) == EqualsSign && c.Peek(1) == EqualsSign && c.Peek(2) == EqualsSign && IsLineEnd(c.Peek(3)) then
      Some(Token(PageBreak, 3))
    else
      var e := LineEnd(c, 0);
      var colon := LastColon(c, e);
      if colon != -1 && ContentBeforeColon(c, e) && titleKeyShiftable then Some(Token(TitleKey, colon + 1))
      else if ScenePrefix(c).Some? then Some(Token(SceneHeading, |ScenePrefix(c).value|))
      else if ForcedSceneHeading(c) then Some(Token(SceneHeading, 1))
      else if c.Peek(0) == Bang then Some(Token(ForceActionMark, 1))
      else CueToken(c)
  }

  /** A slash then an asterisk, outside the boneyard. */
  predicate OpensBoneyard(c: Cursor, inBoneyard: bool) {
    c.Peek(0) == Slash && c.Peek(1) == Asterisk && !inBoneyard
  }

  /** An asterisk then a slash, inside the boneyard. */
  predicate ClosesBoneyard(c: Cursor, inBoneyard: bool) {
    c.Peek(0) == Asterisk && c.Peek(1) == Slash && inBoneyard
  }

  /** One call of `token`: the token accepted, if any, and the new boneyard flag. */
  function Scan(c: Cursor, inBoneyard: bool, titleValueShiftable: bool, titleKeyShiftable: bool): Step {
    if OpensBoneyard(c, inBoneyard) then Step(Some(Token(BoneStart, 2)), true)
    else if ClosesBoneyard(c, inBoneyard) then Step(Some(Token(BoneEnd, 2)), false)
    else if titleValueShiftable then Step(Some(Token(TitleValue, TitleValueEnd(c, LineEnd(c, 0)))), inBoneyard)
    else if LessThanAlone(c) then Step(Some(Token(LessThan, 1)), inBoneyard)
    else if !AtLineStart(c) then Step(None, inBoneyard)
    else Step(LineStartToken(c, titleKeyShiftable), inBoneyard)
  }
}
