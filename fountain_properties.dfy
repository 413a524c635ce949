/**
  What one call of the Fountain tokenizer promises, stated about `Scan`
  (which `FountainTokenizer.Token` is proved to compute).
*/
module FountainProperties {
  import opened Wrappers
  import opened FountainScan

  /** The text at the call position spells out `p`. */
  predicate TextStartsWith(c: Cursor, p: string) {
    forall i :: 0 <= i < |p| ==> c.Peek(i) == p[i] as int
  }

  /** The call reaches the start-of-line checks: no boneyard marker, no title value, no lone `<`. */
  predicate ReachesLineStart(c: Cursor, inBoneyard: bool, titleValueShiftable: bool) {
    AtLineStart(c) && !OpensBoneyard(c, inBoneyard) && !ClosesBoneyard(c, inBoneyard)
    && !titleValueShiftable && !LessThanAlone(c)
  }

  /** The title key fires on this line. */
  predicate TitleKeyFires(c: Cursor, titleKeyShiftable: bool) {
    LastColon(c, LineEnd(c, 0)) != -1 && ContentBeforeColon(c, LineEnd(c, 0)) && titleKeyShiftable
  }

  /**
    The call reaches the character and transition checks: none of the
    markers before them applies (a sufficient condition: any `=` at the
    start, and any colon when a title key could shift, are ruled out).
  */
  predicate ReachesCueStage(c: Cursor, inBoneyard: bool, titleValueShiftable: bool, titleKeyShiftable: bool) {
    ReachesLineStart(c, inBoneyard, titleValueShiftable)
    && c.Peek(SkipBlanks(c, 0)) != Newline
    && c.Peek(0) != GreaterThanSign && c.Peek(0) != EqualsSign && c.Peek(0) != Bang
    && !(titleKeyShiftable && LastColon(c, LineEnd(c, 0)) != -1)
    && ScenePrefix(c).None? && !ForcedSceneHeading(c)
  }

  // ---------------------------------------------------------------- boneyard

  /** A slash-asterisk outside the boneyard is a BoneStart of length 2 and enters the boneyard. */
  lemma BoneyardOpens(c: Cursor, titleValueShiftable: bool, titleKeyShiftable: bool)
    requires c.Peek(0) == Slash && c.Peek(1) == Asterisk
    ensures Scan(c, false, titleValueShiftable, titleKeyShiftable) == Step(Some(Token(BoneStart, 2)), true)
  {
  }

  /** An asterisk-slash inside the boneyard is a BoneEnd of length 2 and leaves the boneyard. */
  lemma BoneyardCloses(c: Cursor, titleValueShiftable: bool, titleKeyShiftable: bool)
    requires c.Peek(0) == Asterisk && c.Peek(1) == Slash
    ensures Scan(c, true, titleValueShiftable, titleKeyShiftable) == Step(Some(Token(BoneEnd, 2)), false)
  {
  }

  /** The cue decision gives only a Character, a DualCharacter or a Transition. */
  lemma CueTokenKinds(c: Cursor)
    ensures var t := CueToken(c);
      t.Some? ==> t.value.kind in {Character, DualCharacter, Transition}
  {
  }

  /** One of the four checks that come before the title-key check decides the line. */
  predicate DecidedEarly(c: Cursor) {
    c.Peek(SkipBlanks(c, 0)) == Newline || c.Peek(0) == GreaterThanSign
    || (c.Peek(0) == EqualsSign && c.Peek(1) != EqualsSign)
    || (c.Peek(0) == EqualsSign && c.Peek(1) == EqualsSign && c.Peek(2) == EqualsSign && IsLineEnd(c.Peek(3)))
  }

  /** The start-of-line checks never produce a boneyard marker, a title value or a `<`. */
  lemma LineStartKinds(c: Cursor, titleKeyShiftable: bool)
    ensures var t := LineStartToken(c, titleKeyShiftable);
      t.Some? ==> t.value.kind !in {BoneStart, BoneEnd, TitleValue, LessThan}
  {
    var t := LineStartToken(c, titleKeyShiftable);
    if DecidedEarly(c) || TitleKeyFires(c, titleKeyShiftable) || ScenePrefix(c).Some? || ForcedSceneHeading(c) || c.Peek(0) == Bang {
      assert t.Some? ==> t.value.kind in {EmptyLine, GreaterThan, SynopsisMark, PageBreak, TitleKey, SceneHeading, ForceActionMark, Character, DualCharacter, Transition};
    } else {
      assert t == CueToken(c);
      CueTokenKinds(c);
    }
  }

  /** The flag changes exactly when a boneyard marker is accepted; no other branch touches it. */
  lemma BoneyardFlagOnlyAtMarkers(c: Cursor, inBoneyard: bool, titleValueShiftable: bool, titleKeyShiftable: bool)
    ensures var r := Scan(c, inBoneyard, titleValueShiftable, titleKeyShiftable);
      r.inBoneyard != inBoneyard <==> r.token.Some? && r.token.value.kind in {BoneStart, BoneEnd}
    ensures var r := Scan(c, inBoneyard, titleValueShiftable, titleKeyShiftable);
      r.token.Some? && r.token.value.kind == BoneStart ==> !inBoneyard && r.inBoneyard
    ensures var r := Scan(c, inBoneyard, titleValueShiftable, titleKeyShiftable);
      r.token.Some? && r.token.value.kind == BoneEnd ==> inBoneyard && !r.inBoneyard
  {
    LineStartKinds(c, titleKeyShiftable);
  }

  // ---------------------------------------------------------------- title value

  /** The run of indented lines after the line ending at `e`: where it stops, and that every line it takes is indented. */
  lemma {:induction false} TitleValueEndFacts(c: Cursor, e: nat)
    requires IsLineEnd(c.Peek(e))
    ensures var r := TitleValueEnd(c, e);
      (c.Peek(r) == Newline ==> !IsIndented(c, r + 1))
      && (forall j :: e <= j < r && c.Peek(j) == Newline ==> IsIndented(c, j + 1))
      && (forall j :: e <= j < r ==> c.Peek(j) != EndOfInput)
    decreases |c.text| - (c.start + e)
  {
    if c.Peek(e) == Newline && IsIndented(c, e + 1) {
      var next := LineEnd(c, e + 1);
      TitleValueEndFacts(c, next);
    }
  }

  /**
    When a title value can shift, the token is the rest of the line plus every
    following line indented by a tab or two spaces: it ends at a newline or the
    end of input, every newline it covers starts an indented line, and the line
    after it (if any) is not indented. It never runs past the end of input.
  */
  lemma TitleValueSpansIndentedLines(c: Cursor, inBoneyard: bool, titleKeyShiftable: bool)
    requires !OpensBoneyard(c, inBoneyard) && !ClosesBoneyard(c, inBoneyard)
    ensures var r := Scan(c, inBoneyard, true, titleKeyShiftable);
      r.inBoneyard == inBoneyard && r.token.Some? && r.token.value.kind == TitleValue
    ensures var n := Scan(c, inBoneyard, true, titleKeyShiftable).token.value.len;
      IsLineEnd(c.Peek(n))
      && (c.Peek(n) == Newline ==> !IsIndented(c, n + 1))
      && (forall j :: 0 <= j < n && c.Peek(j) == Newline ==> IsIndented(c, j + 1))
      && (forall j :: 0 <= j < n ==> c.Peek(j) != EndOfInput)
  {
    TitleValueEndFacts(c, LineEnd(c, 0));
  }

  // ---------------------------------------------------------------- mid-line tokens

  /** A `<` followed only by spaces up to the end of the line is a LessThan of length 1, at any column. */
  lemma LessThanMidLine(c: Cursor, inBoneyard: bool, titleKeyShiftable: bool)
    requires c.Peek(0) == LessThanSign
    requires forall i :: 1 <= i < LineEnd(c, 1) ==> c.Peek(i) == Space
    requires !ClosesBoneyard(c, inBoneyard)
    ensures Scan(c, inBoneyard, false, titleKeyShiftable) == Step(Some(Token(LessThan, 1)), inBoneyard)
  {
    var e := LineEnd(c, 1);
    assert SkipSpaces(c, 1) <= e;
    assert SkipSpaces(c, 1) >= e;
  }

  /** Away from the start of a line, only boneyard markers, title values and lone `<` are produced. */
  lemma OffLineStartOnlyInlineTokens(c: Cursor, inBoneyard: bool, titleValueShiftable: bool, titleKeyShiftable: bool)
    requires !AtLineStart(c)
    ensures var r := Scan(c, inBoneyard, titleValueShiftable, titleKeyShiftable);
      r.token.Some? ==> r.token.value.kind in {BoneStart, BoneEnd, TitleValue, LessThan}
  {
  }

  /** Every other kind of token comes from the start-of-line checks. */
  lemma ScanDefersToLineStart(c: Cursor, inBoneyard: bool, titleValueShiftable: bool, titleKeyShiftable: bool)
    ensures var r := Scan(c, inBoneyard, titleValueShiftable, titleKeyShiftable).token;
      r.Some? && r.value.kind !in {BoneStart, BoneEnd, TitleValue, LessThan} ==>
        AtLineStart(c) && r == LineStartToken(c, titleKeyShiftable)
  {
  }

  /** When none of the earlier checks applies, the call is decided by the start-of-line checks. */
  lemma ScanAtLineStart(c: Cursor, inBoneyard: bool, titleKeyShiftable: bool)
    requires ReachesLineStart(c, inBoneyard, false)
    ensures Scan(c, inBoneyard, false, titleKeyShiftable) == Step(LineStartToken(c, titleKeyShiftable), inBoneyard)
  {
  }

  // ---------------------------------------------------------------- line-start markers

  /**
    At the start of a line, spaces and tabs up to a newline are an EmptyLine that
    takes the newline with it, and an EmptyLine arises in no other way.
  */
  lemma EmptyLineConsumesNewline(c: Cursor, inBoneyard: bool, titleKeyShiftable: bool)
    requires ReachesLineStart(c, inBoneyard, false)
    ensures var r := Scan(c, inBoneyard, false, titleKeyShiftable).token;
      (r.Some? && r.value.kind == EmptyLine) <==> c.Peek(SkipBlanks(c, 0)) == Newline
    ensures var r := Scan(c, inBoneyard, false, titleKeyShiftable).token;
      r.Some? && r.value.kind == EmptyLine ==>
        r.value.len >= 1 && c.Peek(r.value.len - 1) == Newline
        && forall i :: 0 <= i < r.value.len - 1 ==> c.Peek(i) == Space || c.Peek(i) == Tab
  {
    ScanAtLineStart(c, inBoneyard, titleKeyShiftable);
  }

  /** At the start of a line, `>` is a GreaterThan of length 1. */
  lemma GreaterThanMarker(c: Cursor, inBoneyard: bool, titleKeyShiftable: bool)
    requires ReachesLineStart(c, inBoneyard, false) && c.Peek(0) == GreaterThanSign
    ensures Scan(c, inBoneyard, false, titleKeyShiftable).token == Some(Token(GreaterThan, 1))
  {
    ScanAtLineStart(c, inBoneyard, titleKeyShiftable);
  }

  /** At the start of a line, `=` not followed by `=` is a SynopsisMark of length 1. */
  lemma SynopsisMarker(c: Cursor, inBoneyard: bool, titleKeyShiftable: bool)
    requires ReachesLineStart(c, inBoneyard, false) && c.Peek(0) == EqualsSign && c.Peek(1) != EqualsSign
    ensures Scan(c, inBoneyard, false, titleKeyShiftable).token == Some(Token(SynopsisMark, 1))
  {
    ScanAtLineStart(c, inBoneyard, titleKeyShiftable);
  }

  /** At the start of a line, `===` then a newline or the end of input is a PageBreak of length 3. */
  lemma PageBreakMarker(c: Cursor, inBoneyard: bool, titleKeyShiftable: bool)
    requires ReachesLineStart(c, inBoneyard, false)
    requires c.Peek(0) == EqualsSign && c.Peek(1) == EqualsSign && c.Peek(2) == EqualsSign && IsLineEnd(c.Peek(3))
    ensures Scan(c, inBoneyard, false, titleKeyShiftable).token == Some(Token(PageBreak, 3))
  {
    ScanAtLineStart(c, inBoneyard, titleKeyShiftable);
  }

  /** No scene-heading prefix starts with `!`. */
  lemma NoPrefixAtBang(c: Cursor)
    requires c.Peek(0) == Bang
    ensures ScenePrefix(c).None?
  {
    var buffer := Buffer(c);
    forall p | p in ScenePrefixes ensures !StartsWith(buffer, p) {
      assert |p| > 0 && p[0] != '!';
      if |p| <= |buffer| {
        assert buffer[..|p|][0] != Codes(p)[0];
      }
    }
  }

  /** At the start of a line, `!` is a ForceActionMark of length 1 unless the line is a title key. */
  lemma ForceActionMarker(c: Cursor, inBoneyard: bool, titleKeyShiftable: bool)
    requires ReachesLineStart(c, inBoneyard, false) && c.Peek(0) == Bang
    requires !TitleKeyFires(c, titleKeyShiftable)
    ensures Scan(c, inBoneyard, false, titleKeyShiftable).token == Some(Token(ForceActionMark, 1))
  {
    ScanAtLineStart(c, inBoneyard, titleKeyShiftable);
    NoPrefixAtBang(c);
  }

  // ---------------------------------------------------------------- title key

  /** The start-of-line checks give a TitleKey only through the last colon of a line with content before its first colon. */
  lemma TitleKeyLine(c: Cursor, titleKeyShiftable: bool)
    ensures var r := LineStartToken(c, titleKeyShiftable);
      r.Some? && r.value.kind == TitleKey ==>
        titleKeyShiftable && ContentBeforeColon(c, LineEnd(c, 0)) && r.value.len == LastColon(c, LineEnd(c, 0)) + 1
  {
    var r := LineStartToken(c, titleKeyShiftable);
    if DecidedEarly(c) {
      assert r.Some? && r.value.kind in {EmptyLine, GreaterThan, SynopsisMark, PageBreak};
    } else if TitleKeyFires(c, titleKeyShiftable) {
      assert r == Some(Token(TitleKey, LastColon(c, LineEnd(c, 0)) + 1));
    } else if ScenePrefix(c).Some? || ForcedSceneHeading(c) || c.Peek(0) == Bang {
      assert r.Some? && r.value.kind in {SceneHeading, ForceActionMark};
    } else {
      assert r == CueToken(c);
      CueTokenKinds(c);
    }
  }

  /**
    A TitleKey needs a title key to be shiftable, a colon on the line and
    something other than a space before the first colon; it runs through the
    last colon of the line.
  */
  lemma TitleKeyThroughLastColon(c: Cursor, inBoneyard: bool, titleValueShiftable: bool, titleKeyShiftable: bool)
    ensures var r := Scan(c, inBoneyard, titleValueShiftable, titleKeyShiftable).token;
      r.Some? && r.value.kind == TitleKey ==>
        titleKeyShiftable && AtLineStart(c)
        && ContentBeforeColon(c, LineEnd(c, 0))
        && 1 <= r.value.len <= LineEnd(c, 0) && c.Peek(r.value.len - 1) == Colon
        && forall j :: r.value.len <= j < LineEnd(c, 0) ==> c.Peek(j) != Colon
  {
    ScanDefersToLineStart(c, inBoneyard, titleValueShiftable, titleKeyShiftable);
    TitleKeyLine(c, titleKeyShiftable);
  }

  /** At the start of a line not opened by a marker, a line with content before its first colon is a TitleKey when one can shift. */
  lemma TitleKeyEmitted(c: Cursor, inBoneyard: bool)
    requires ReachesLineStart(c, inBoneyard, false)
    requires c.Peek(0) != GreaterThanSign && c.Peek(0) != EqualsSign
    requires LastColon(c, LineEnd(c, 0)) != -1 && ContentBeforeColon(c, LineEnd(c, 0))
    ensures Scan(c, inBoneyard, false, true).token == Some(Token(TitleKey, LastColon(c, LineEnd(c, 0)) + 1))
  {
    ScanAtLineStart(c, inBoneyard, true);
    var colon := LastColon(c, LineEnd(c, 0));
    assert SkipBlanks(c, 0) <= colon;
    assert c.Peek(SkipBlanks(c, 0)) != Newline;
  }

  // ---------------------------------------------------------------- scene headings

  /** The lookahead buffer starts with a prefix of at most 10 codes exactly when the text does. */
  lemma BufferStartsWithText(c: Cursor, p: string)
    requires |p| <= 10
    ensures StartsWith(Buffer(c), p) <==> TextStartsWith(c, p)
  {
    var buffer := Buffer(c);
    if StartsWith(buffer, p) {
      forall i | 0 <= i < |p| ensures c.Peek(i) == p[i] as int {
        assert buffer[..|p|][i] == Codes(p)[i];
      }
    }
    if TextStartsWith(c, p) && |p| > 0 {
      assert c.Peek(|p| - 1) == p[|p| - 1] as int;
      assert |p| <= |buffer|;
      forall i | 0 <= i < |p| ensures buffer[..|p|][i] == Codes(p)[i] {
        assert c.Peek(i) == p[i] as int;
      }
      assert buffer[..|p|] == Codes(p);
    }
  }

  /** The match found is the earliest prefix in the list that applies. */
  lemma {:induction false} FirstMatchIsEarliest(buffer: seq<int>, prefixes: seq<string>)
    ensures var r := FirstMatch(buffer, prefixes);
      r.Some? ==>
        exists i :: 0 <= i < |prefixes| && prefixes[i] == r.value
          && (forall j :: 0 <= j < i ==> !StartsWith(buffer, prefixes[j]))
  {
    if prefixes != [] && !StartsWith(buffer, prefixes[0]) {
      FirstMatchIsEarliest(buffer, prefixes[1..]);
      var r := FirstMatch(buffer, prefixes);
      if r.Some? {
        var i :| 0 <= i < |prefixes[1..]| && prefixes[1..][i] == r.value
          && forall j :: 0 <= j < i ==> !StartsWith(buffer, prefixes[1..][j]);
        assert prefixes[i + 1] == r.value;
        forall j | 0 <= j < i + 1 ensures !StartsWith(buffer, prefixes[j]) {
          if j > 0 {
            assert prefixes[j] == prefixes[1..][j - 1];
          }
        }
      }
    } else if prefixes != [] {
      assert prefixes[0] == FirstMatch(buffer, prefixes).value;
    }
  }

  /** The start-of-line checks give a SceneHeading for a listed prefix, or for a forced `.` when no prefix applies. */
  lemma SceneHeadingLine(c: Cursor, titleKeyShiftable: bool)
    ensures var r := LineStartToken(c, titleKeyShiftable);
      r.Some? && r.value.kind == SceneHeading ==>
        (ScenePrefix(c).Some? && r.value.len == |ScenePrefix(c).value|)
        || (ScenePrefix(c).None? && ForcedSceneHeading(c) && r.value.len == 1)
  {
    var r := LineStartToken(c, titleKeyShiftable);
    if DecidedEarly(c) || TitleKeyFires(c, titleKeyShiftable) {
      assert r.Some? && r.value.kind in {EmptyLine, GreaterThan, SynopsisMark, PageBreak, TitleKey};
    } else if ScenePrefix(c).Some? {
      assert r == Some(Token(SceneHeading, |ScenePrefix(c).value|));
    } else if ForcedSceneHeading(c) {
      assert r == Some(Token(SceneHeading, 1));
    } else if c.Peek(0) == Bang {
      assert r == Some(Token(ForceActionMark, 1));
    } else {
      assert r == CueToken(c);
      CueTokenKinds(c);
    }
  }

  /** The prefix the scene-heading check picks is the first of the list that the text starts with. */
  lemma ScenePrefixIsEarliest(c: Cursor)
    requires ScenePrefix(c).Some?
    ensures exists i ::
      0 <= i < |ScenePrefixes| && ScenePrefixes[i] == ScenePrefix(c).value
      && TextStartsWith(c, ScenePrefixes[i])
      && (forall j :: 0 <= j < i ==> !TextStartsWith(c, ScenePrefixes[j]))
  {
    FirstMatchIsEarliest(Buffer(c), ScenePrefixes);
    var i :| 0 <= i < |ScenePrefixes| && ScenePrefixes[i] == ScenePrefix(c).value
      && forall j :: 0 <= j < i ==> !StartsWith(Buffer(c), ScenePrefixes[j]);
    BufferStartsWithText(c, ScenePrefixes[i]);
    forall j | 0 <= j < i ensures !TextStartsWith(c, ScenePrefixes[j]) {
      BufferStartsWithText(c, ScenePrefixes[j]);
    }
  }

  /**
    A SceneHeading is either the first of `INT./EXT.`, `INT/EXT.`, `INT.`,
    `EXT.`, `I/E.` that the line starts with, its length that prefix's length,
    or a forced `.` of length 1 whose next code is none of `.`, space, newline
    or the end of input.
  */
  lemma SceneHeadingShapes(c: Cursor, inBoneyard: bool, titleValueShiftable: bool, titleKeyShiftable: bool)
    ensures var r := Scan(c, inBoneyard, titleValueShiftable, titleKeyShiftable).token;
      r.Some? && r.value.kind == SceneHeading ==>
        AtLineStart(c) &&
        ((exists i :: 0 <= i < |ScenePrefixes| && r.value.len == |ScenePrefixes[i]|
            && TextStartsWith(c, ScenePrefixes[i])
            && (forall j :: 0 <= j < i ==> !TextStartsWith(c, ScenePrefixes[j])))
         || (r.value.len == 1 && ForcedSceneHeading(c)))
  {
    ScanDefersToLineStart(c, inBoneyard, titleValueShiftable, titleKeyShiftable);
    SceneHeadingLine(c, titleKeyShiftable);
    if ScenePrefix(c).Some? {
      ScenePrefixIsEarliest(c);
    }
  }

  /** `INT./EXT.` is tried before `INT.`: a line starting with it takes all 9 codes. */
  lemma CombinedPrefixWins(c: Cursor)
    requires TextStartsWith(c, "INT./EXT.")
    ensures ScenePrefix(c) == Some("INT./EXT.")
  {
    BufferStartsWithText(c, "INT./EXT.");
  }

  // ---------------------------------------------------------------- characters and transitions

  /** The start-of-line checks give a Character, DualCharacter or Transition only through the cue decision. */
  lemma CueLine(c: Cursor, titleKeyShiftable: bool)
    ensures var r := LineStartToken(c, titleKeyShiftable);
      r.Some? && r.value.kind in {Transition, Character, DualCharacter} ==> r == CueToken(c)
  {
    var r := LineStartToken(c, titleKeyShiftable);
    if DecidedEarly(c) || TitleKeyFires(c, titleKeyShiftable) || ScenePrefix(c).Some? || ForcedSceneHeading(c) || c.Peek(0) == Bang {
      assert r.Some? && r.value.kind in {EmptyLine, GreaterThan, SynopsisMark, PageBreak, TitleKey, SceneHeading, ForceActionMark};
    } else {
      assert r == CueToken(c);
    }
  }

  /** Past the earlier markers, the decision is the one on characters and transitions. */
  lemma CueStageDecides(c: Cursor, inBoneyard: bool, titleValueShiftable: bool, titleKeyShiftable: bool)
    requires ReachesCueStage(c, inBoneyard, titleValueShiftable, titleKeyShiftable)
    ensures Scan(c, inBoneyard, titleValueShiftable, titleKeyShiftable).token == CueToken(c)
  {
  }

  /** A cue token comes from `Scan` only at the start of a line, and is then the cue decision. */
  lemma ScanCueToken(c: Cursor, inBoneyard: bool, titleValueShiftable: bool, titleKeyShiftable: bool)
    ensures var r := Scan(c, inBoneyard, titleValueShiftable, titleKeyShiftable).token;
      r.Some? && r.value.kind in {Transition, Character, DualCharacter} ==> AtLineStart(c) && r == CueToken(c)
  {
    ScanDefersToLineStart(c, inBoneyard, titleValueShiftable, titleKeyShiftable);
    CueLine(c, titleKeyShiftable);
  }

  /** A line with a lower-case letter is never a Transition nor a DualCharacter, and a Character only when forced with `@`. */
  lemma LowercaseExcludesCues(c: Cursor, inBoneyard: bool, titleValueShiftable: bool, titleKeyShiftable: bool)
    requires HasLowercase(c, LineEnd(c, 0))
    ensures var r := Scan(c, inBoneyard, titleValueShiftable, titleKeyShiftable).token;
      r.Some? ==>
        r.value.kind != Transition && r.value.kind != DualCharacter
        && (r.value.kind == Character ==> c.Peek(0) == At)
  {
    ScanCueToken(c, inBoneyard, titleValueShiftable, titleKeyShiftable);
  }

  /** A Transition covers the whole line (without the newline), has no lower case, more than 3 codes, and ends its content with `TO:`. */
  lemma TransitionShape(c: Cursor, inBoneyard: bool, titleValueShiftable: bool, titleKeyShiftable: bool)
    ensures var r := Scan(c, inBoneyard, titleValueShiftable, titleKeyShiftable).token;
      r.Some? && r.value.kind == Transition ==>
        AtLineStart(c) && !HasLowercase(c, LineEnd(c, 0))
        && r.value.len == LineEnd(c, 0) > 3
        && c.Peek(CueEnd(c) - 3) == UpperT && c.Peek(CueEnd(c) - 2) == UpperO && c.Peek(CueEnd(c) - 1) == Colon
  {
    ScanCueToken(c, inBoneyard, titleValueShiftable, titleKeyShiftable);
  }

  /** A lower-case-free line of more than 3 codes whose content ends in `TO:` is a Transition covering the line. */
  lemma TransitionEmitted(c: Cursor, inBoneyard: bool, titleValueShiftable: bool, titleKeyShiftable: bool)
    requires ReachesCueStage(c, inBoneyard, titleValueShiftable, titleKeyShiftable) && c.Peek(0) != At
    requires !HasLowercase(c, LineEnd(c, 0)) && LineEnd(c, 0) > 3
    requires c.Peek(CueEnd(c) - 3) == UpperT && c.Peek(CueEnd(c) - 2) == UpperO && c.Peek(CueEnd(c) - 1) == Colon
    ensures Scan(c, inBoneyard, titleValueShiftable, titleKeyShiftable).token == Some(Token(Transition, LineEnd(c, 0)))
  {
    CueStageDecides(c, inBoneyard, titleValueShiftable, titleKeyShiftable);
    assert CueEnd(c) <= ContentEnd(c);
  }

  /** What the cue decision promises about a Character or DualCharacter it gives. */
  lemma CharacterDecision(c: Cursor)
    ensures var r := CueToken(c);
      r.Some? && (r.value.kind == Character || r.value.kind == DualCharacter) ==>
        var e := LineEnd(c, 0);
        var paren := FirstParen(c, e);
        var stop := if paren != -1 then paren else CueEnd(c);
        PrecededByBlankLine(c) && FollowedByNonBlankLine(c, e)
        && (c.Peek(0) != At ==>
              IsUpper(c.Peek(0)) && IsUpper(c.Peek(1)) && !HasLowercase(c, e)
              && (paren != -1 ==> c.Peek(CueEnd(c) - 1) == RParen)
              && (r.value.kind == DualCharacter <==> IsDual(c)))
        && (c.Peek(0) == At ==> r.value.kind == Character)
        && r.value.len == TrimEnd(c, stop)
  {
  }

  /**
    Character cues. Every cue is at the start of a line preceded by a blank
    line and followed by a non-blank one. A cue not forced by `@` starts with
    two capitals, has no lower case, and an extension `(` on it is closed by
    `)` as its last content code. The name stops before the `(` (or the end
    of the content) and the spaces before it. A DualCharacter is exactly a
    non-forced cue whose line ends in `^`; a forced cue is never dual.
  */
  lemma CharacterCueShape(c: Cursor, inBoneyard: bool, titleValueShiftable: bool, titleKeyShiftable: bool)
    ensures var r := Scan(c, inBoneyard, titleValueShiftable, titleKeyShiftable).token;
      r.Some? && (r.value.kind == Character || r.value.kind == DualCharacter) ==>
        var e := LineEnd(c, 0);
        var paren := FirstParen(c, e);
        var stop := if paren != -1 then paren else CueEnd(c);
        AtLineStart(c) && PrecededByBlankLine(c) && FollowedByNonBlankLine(c, e)
        && (c.Peek(0) != At ==>
              IsUpper(c.Peek(0)) && IsUpper(c.Peek(1)) && !HasLowercase(c, e)
              && (paren != -1 ==> c.Peek(CueEnd(c) - 1) == RParen)
              && (r.value.kind == DualCharacter <==> IsDual(c)))
        && (c.Peek(0) == At ==> r.value.kind == Character)
        && r.value.len <= stop
        && (r.value.len > 0 ==> c.Peek(r.value.len - 1) != Space)
        && (forall i :: r.value.len <= i < stop ==> c.Peek(i) == Space)
  {
    ScanCueToken(c, inBoneyard, titleValueShiftable, titleKeyShiftable);
    CharacterDecision(c);
  }

  /** A forced `@` cue at a cue position is a Character whatever its case and extension. */
  lemma ForcedCharacterCue(c: Cursor, inBoneyard: bool, titleValueShiftable: bool, titleKeyShiftable: bool)
    requires ReachesCueStage(c, inBoneyard, titleValueShiftable, titleKeyShiftable) && c.Peek(0) == At
    requires PrecededByBlankLine(c) && FollowedByNonBlankLine(c, LineEnd(c, 0))
    ensures var r := Scan(c, inBoneyard, titleValueShiftable, titleKeyShiftable);
      r.token.Some? && r.token.value.kind == Character
  {
    CueStageDecides(c, inBoneyard, titleValueShiftable, titleKeyShiftable);
    assert ContentEnd(c) > 0;
  }
}
