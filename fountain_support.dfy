/**
  Line formatting for the Fountain editor (`fountainSupport.ts`): each line
  of the visible text gets at most one CSS class, taken from the first
  syntax node on that line whose type has a class. The syntax tree is
  foreign: a visible range is modelled as the sequence of nodes its
  iteration enters, each with its type name and the start of the line it
  starts on.
*/
module FountainSupport {
  import opened Wrappers

  const SceneClass: string := "cm-fountain-scene"
  const ActionClass: string := "cm-fountain-action"
  const CharacterClass: string := "cm-fountain-character"
  const ParentheticalClass: string := "cm-fountain-parenthetical"
  const DialogueClass: string := "cm-fountain-dialogue"
  const TransitionClass: string := "cm-fountain-transition"
  const SectionClass: string := "cm-fountain-section"
  const SynopsisClass: string := "cm-fountain-synopsis"

  /** The node types that carry a class. */
  const MappedTypes: set<string> := {
    "SceneHeadingLine", "ActionLine", "ForcedActionLine", "CharacterCue", "DualCharacterCue",
    "Parenthetical", "DialogueLine", "TransitionLine", "SectionLine", "SynopsisLine"}

  /** `lineClassByType.get(name)`. */
  function LineClassByType(name: string): (c: Option<string>)
    ensures c.Some? <==> name in MappedTypes
    ensures c.Some? ==> c.value in {SceneClass, ActionClass, CharacterClass, ParentheticalClass,
                                    DialogueClass, TransitionClass, SectionClass, SynopsisClass}
  {
    if name == "SceneHeadingLine" then Some(SceneClass)
    else if name == "ActionLine" then Some(ActionClass)
    else if name == "ForcedActionLine" then Some(ActionClass)
    else if name == "CharacterCue" then Some(CharacterClass)
    else if name == "DualCharacterCue" then Some(CharacterClass)
    else if name == "Parenthetical" then Some(ParentheticalClass)
    else if name == "DialogueLine" then Some(DialogueClass)
    else if name == "TransitionLine" then Some(TransitionClass)
    else if name == "SectionLine" then Some(SectionClass)
    else if name == "SynopsisLine" then Some(SynopsisClass)
    else None
  }

  /** Forced and plain action lines look alike, as do single and dual character cues; the tokenizer's own node names carry no class. */
  lemma SharedClasses()
    ensures LineClassByType("ActionLine") == LineClassByType("ForcedActionLine") == Some(ActionClass)
    ensures LineClassByType("CharacterCue") == LineClassByType("DualCharacterCue") == Some(CharacterClass)
    ensures LineClassByType("Boneyard").None? && LineClassByType("TitleKey").None?
  {
  }

  /** A node the tree iteration enters: its type name and the start of the line it starts on. */
  datatype VisitedNode = VisitedNode(typeName: string, lineFrom: nat)

  /** One entry of the `lineClasses` map. */
  datatype LineClass = LineClass(lineFrom: nat, className: string)

  /** `Decoration.line({ class })` added at `from`..`to`. */
  datatype LineDecoration = LineDecoration(from: nat, to: nat, className: string)

  /** `lineClasses.has(lineFrom)`. */
  predicate HasLine(entries: seq<LineClass>, lineFrom: nat) {
    exists i :: 0 <= i < |entries| && entries[i].lineFrom == lineFrom
  }

  /** The nodes of all visible ranges, range after range. */
  function Flatten(ranges: seq<seq<VisitedNode>>): (nodes: seq<VisitedNode>) {
    if ranges == [] then [] else Flatten(ranges[..|ranges| - 1]) + ranges[|ranges| - 1]
  }

  /** The `enter` callback on one node. */
  function Enter(entries: seq<LineClass>, node: VisitedNode): seq<LineClass> {
    var className := LineClassByType(node.typeName);
    if className.None? || HasLine(entries, node.lineFrom) then entries
    else entries + [LineClass(node.lineFrom, className.value)]
  }

  /** The `lineClasses` map, in insertion order, after entering `nodes` in order. */
  function LineClasses(nodes: seq<VisitedNode>): seq<LineClass> {
    if nodes == [] then [] else Enter(LineClasses(nodes[..|nodes| - 1]), nodes[|nodes| - 1])
  }

  /** The class of the first node on line `lineFrom` whose type has one: the reference for first-wins. */
  function FirstClass(nodes: seq<VisitedNode>, lineFrom: nat): Option<string> {
    if nodes == [] then None
    else if nodes[0].lineFrom == lineFrom && LineClassByType(nodes[0].typeName).Some? then LineClassByType(nodes[0].typeName)
    else FirstClass(nodes[1..], lineFrom)
  }

  /** The class the map holds for line `lineFrom`, if any. */
  function ClassOf(entries: seq<LineClass>, lineFrom: nat): (c: Option<string>)
    ensures c.Some? <==> HasLine(entries, lineFrom)
  {
    if entries == [] then None
    else if entries[0].lineFrom == lineFrom then Some(entries[0].className)
    else
      var rest := ClassOf(entries[1..], lineFrom);
      assert HasLine(entries[1..], lineFrom) ==> HasLine(entries, lineFrom) by {
        if HasLine(entries[1..], lineFrom) {
          var i :| 0 <= i < |entries[1..]| && entries[1..][i].lineFrom == lineFrom;
          assert entries[i + 1].lineFrom == lineFrom;
        }
      }
      rest
  }

  lemma {:induction false} FirstClassAppend(nodes: seq<VisitedNode>, node: VisitedNode, lineFrom: nat)
    ensures FirstClass(nodes + [node], lineFrom) ==
      if FirstClass(nodes, lineFrom).Some? then FirstClass(nodes, lineFrom)
      else if node.lineFrom == lineFrom then LineClassByType(node.typeName)
      else None
  {
    if nodes == [] {
      assert [node][1..] == [];
    } else {
      assert (nodes + [node])[1..] == nodes[1..] + [node];
      FirstClassAppend(nodes[1..], node, lineFrom);
    }
  }

  lemma {:induction false} ClassOfAppend(entries: seq<LineClass>, entry: LineClass, lineFrom: nat)
    ensures ClassOf(entries + [entry], lineFrom) ==
      if ClassOf(entries, lineFrom).Some? then ClassOf(entries, lineFrom)
      else if entry.lineFrom == lineFrom then Some(entry.className)
      else None
  {
    if entries == [] {
      assert [entry][1..] == [];
    } else {
      assert (entries + [entry])[1..] == entries[1..] + [entry];
      ClassOfAppend(entries[1..], entry, lineFrom);
    }
  }

  /**
    First wins: every line gets exactly the class of the first node on it
    whose type has a class, and a line gets an entry only if such a node
    exists.
  */
  lemma {:induction false} FirstVisitWins(nodes: seq<VisitedNode>, lineFrom: nat)
    ensures ClassOf(LineClasses(nodes), lineFrom) == FirstClass(nodes, lineFrom)
    decreases |nodes|
  {
    if nodes != [] {
      var prefix, last := nodes[..|nodes| - 1], nodes[|nodes| - 1];
      assert nodes == prefix + [last];
      FirstVisitWins(prefix, lineFrom);
      FirstClassAppend(prefix, last, lineFrom);
      var before := LineClasses(prefix);
      var className := LineClassByType(last.typeName);
      if className.Some? && !HasLine(before, last.lineFrom) {
        ClassOfAppend(before, LineClass(last.lineFrom, className.value), lineFrom);
      }
    }
  }

  /** No line start occurs twice among `entries`. */
  predicate DistinctLines(entries: seq<LineClass>) {
    forall i, j :: 0 <= i < j < |entries| ==> entries[i].lineFrom != entries[j].lineFrom
  }

  /** The line starts among `entries` increase. */
  predicate IncreasingLines(entries: seq<LineClass>) {
    forall i, j :: 0 <= i < j < |entries| ==> entries[i].lineFrom < entries[j].lineFrom
  }

  /** Every line start among `entries` is that of one of `nodes`. */
  predicate LinesOfNodes(entries: seq<LineClass>, nodes: seq<VisitedNode>) {
    forall i :: 0 <= i < |entries| ==> exists k :: 0 <= k < |nodes| && nodes[k].lineFrom == entries[i].lineFrom
  }

  /** Each line start appears at most once in the map. */
  lemma {:induction false} OneClassPerLine(nodes: seq<VisitedNode>)
    ensures DistinctLines(LineClasses(nodes))
    decreases |nodes|
  {
    if nodes != [] {
      var prefix, last := nodes[..|nodes| - 1], nodes[|nodes| - 1];
      OneClassPerLine(prefix);
      var before := LineClasses(prefix);
      var entries := LineClasses(nodes);
      if |entries| > |before| {
        assert entries == before + [LineClass(last.lineFrom, LineClassByType(last.typeName).value)];
        forall i, j | 0 <= i < j < |entries| ensures entries[i].lineFrom != entries[j].lineFrom {
          assert entries[i] == before[i];
          if j < |before| {
            assert entries[j] == before[j];
          } else {
            assert !HasLine(before, last.lineFrom);
          }
        }
      } else {
        assert entries == before;
      }
    }
  }

  /** Nodes entered in order of their lines put the lines in the map in increasing order, as the range builder needs. */
  lemma {:induction false} LinesInOrder(nodes: seq<VisitedNode>)
    requires forall i, j :: 0 <= i < j < |nodes| ==> nodes[i].lineFrom <= nodes[j].lineFrom
    ensures IncreasingLines(LineClasses(nodes))
    decreases |nodes|
  {
    if nodes != [] {
      var prefix, last := nodes[..|nodes| - 1], nodes[|nodes| - 1];
      LinesInOrder(prefix);
      OneClassPerLine(nodes);
      LinesFromNodes(prefix);
      var entries := LineClasses(nodes);
      var before := LineClasses(prefix);
      assert entries == before || entries == before + [LineClass(last.lineFrom, LineClassByType(last.typeName).value)];
      forall i, j | 0 <= i < j < |entries| ensures entries[i].lineFrom < entries[j].lineFrom {
        if j < |before| {
          assert entries[i] == before[i] && entries[j] == before[j];
        } else {
          assert entries[i] == before[i];
          var k :| 0 <= k < |prefix| && prefix[k].lineFrom == entries[i].lineFrom;
          assert nodes[k] == prefix[k];
          assert entries[j].lineFrom == last.lineFrom;
        }
      }
    }
  }

  /** Every line in the map is the line of some entered node. */
  lemma {:induction false} LinesFromNodes(nodes: seq<VisitedNode>)
    ensures LinesOfNodes(LineClasses(nodes), nodes)
    decreases |nodes|
  {
    if nodes != [] {
      var prefix := nodes[..|nodes| - 1];
      LinesFromNodes(prefix);
      var entries := LineClasses(nodes);
      forall i | 0 <= i < |entries| ensures exists k :: 0 <= k < |nodes| && nodes[k].lineFrom == entries[i].lineFrom {
        if i < |LineClasses(prefix)| {
          assert entries[i] == LineClasses(prefix)[i];
          var k :| 0 <= k < |prefix| && prefix[k].lineFrom == entries[i].lineFrom;
          assert nodes[k] == prefix[k];
        } else {
          assert nodes[|nodes| - 1].lineFrom == entries[i].lineFrom;
        }
      }
    }
  }

  /** One zero-width line decoration per entry, in the map's order. */
  function DecorationsFor(entries: seq<LineClass>): (d: seq<LineDecoration>)
    ensures |d| == |entries|
    ensures forall i :: 0 <= i < |d| ==>
      d[i].from == d[i].to == entries[i].lineFrom && d[i].className == entries[i].className
  {
    if entries == [] then []
    else DecorationsFor(entries[..|entries| - 1]) + [LineDecoration(entries[|entries| - 1].lineFrom, entries[|entries| - 1].lineFrom, entries[|entries| - 1].className)]
  }

  /** `buildLineDecorations`: fill the map first-wins over every visible range, then add one decoration per entry. */
  method BuildLineDecorations(ranges: seq<seq<VisitedNode>>) returns (decorations: seq<LineDecoration>)
    ensures decorations == DecorationsFor(LineClasses(Flatten(ranges)))
  {
    var lineClasses: seq<LineClass> := [];
    for r := 0 to |ranges|
      invariant lineClasses == LineClasses(Flatten(ranges[..r]))
    {
      var nodes := ranges[r];
      ghost var done := Flatten(ranges[..r]);
      assert ranges[..r + 1][..r] == ranges[..r];
      assert Flatten(ranges[..r + 1]) == done + nodes;
      assert done + nodes[..0] == done;
      for n := 0 to |nodes|
        invariant lineClasses == LineClasses(done + nodes[..n])
      {
        ghost var seen := done + nodes[..n];
        assert done + nodes[..n + 1] == seen + [nodes[n]];
        assert (seen + [nodes[n]])[..|seen|] == seen;
        assert LineClasses(seen + [nodes[n]]) == Enter(LineClasses(seen), nodes[n]);
        var className := LineClassByType(nodes[n].typeName);
        if className.None? {
          continue;
        }
        var line := nodes[n].lineFrom;
        if !HasLine(lineClasses, line) {
          lineClasses := lineClasses + [LineClass(line, className.value)];
        }
      }
      assert nodes[..|nodes|] == nodes;
    }
    assert ranges[..|ranges|] == ranges;
    decorations := [];
    for i := 0 to |lineClasses|
      invariant decorations == DecorationsFor(lineClasses[..i])
    {
      assert lineClasses[..i + 1][..i] == lineClasses[..i];
      decorations := decorations + [LineDecoration(lineClasses[i].lineFrom, lineClasses[i].lineFrom, lineClasses[i].className)];
    }
    assert lineClasses[..|lineClasses|] == lineClasses;
  }

  /** The view plugin `fountainLineFormatting`: it keeps the decorations of the current view. */
  class LineFormatting {
    var decorations: seq<LineDecoration>

    constructor (ranges: seq<seq<VisitedNode>>)
      ensures decorations == DecorationsFor(LineClasses(Flatten(ranges)))
    {
      var built := BuildLineDecorations(ranges);
      decorations := built;
    }

    /** `update`: rebuild only when the document or the viewport changed. */
    method Update(docChanged: bool, viewportChanged: bool, ranges: seq<seq<VisitedNode>>)
      modifies this
      ensures docChanged || viewportChanged ==> decorations == DecorationsFor(LineClasses(Flatten(ranges)))
      ensures !(docChanged || viewportChanged) ==> decorations == old(decorations)
    {
      if docChanged || viewportChanged {
        decorations := BuildLineDecorations(ranges);
      }
    }
  }
}
