/**
 * Key/value extraction from a Textract `AnalyzeDocument` (FORMS) response.
 *
 * Blocks are indexed by ID. Each KEY_VALUE_SET block tagged KEY contributes one
 * entry: its key is the text of its CHILD blocks, its value the text of the CHILD
 * blocks of the block its VALUE relationship points to. The Textract call itself is
 * outside the model: the blocks it returns are the input.
 */
module TextractForms {
  import opened Values
  import opened JavaText

  datatype BlockType = PAGE | LINE | WORD | KEY_VALUE_SET | TABLE | CELL | SELECTION_ELEMENT
  datatype EntityType = KEY | VALUE_ENTITY
  datatype RelationshipType = CHILD | VALUE | COMPLEX_FEATURES

  datatype Relationship = Relationship(relType: RelationshipType, ids: seq<string>)

  /** A block; `entityTypes`, `relationships` and `text` are None when the SDK returns null. */
  datatype Block = Block(
    id: string,
    blockType: BlockType,
    entityTypes: Option<seq<EntityType>>,
    relationships: Option<seq<Relationship>>,
    text: Option<string>)

  // ---------------------------------------------------------------------------
  // The block map
  // ---------------------------------------------------------------------------

  /** `blockMap.put(block.id(), block)` for every block in order: a later block with the same ID wins. */
  function BlockIndex(blocks: seq<Block>): (r: map<string, Block>)
    ensures forall id :: id in r ==> r[id].id == id
  {
    if blocks == [] then map[]
    else BlockIndex(blocks[..|blocks| - 1])[blocks[|blocks| - 1].id := blocks[|blocks| - 1]]
  }

  /** Every ID of the response is in the map, bound to the last block that carries it. */
  lemma {:induction false} BlockIndexLast(blocks: seq<Block>, id: string)
    ensures id in BlockIndex(blocks) <==> exists i :: 0 <= i < |blocks| && blocks[i].id == id
    ensures id in BlockIndex(blocks) ==>
              exists i :: 0 <= i < |blocks| && blocks[i] == BlockIndex(blocks)[id]
                          && forall j :: i < j < |blocks| ==> blocks[j].id != id
  {
    if blocks != [] {
      var init := blocks[..|blocks| - 1];
      BlockIndexLast(init, id);
      assert forall i :: 0 <= i < |init| ==> init[i] == blocks[i];
    }
  }

  /** The loop that fills `blockMap`. */
  method BuildBlockMap(blocks: seq<Block>) returns (blockMap: map<string, Block>)
    ensures blockMap == BlockIndex(blocks)
  {
    blockMap := map[];
    for i := 0 to |blocks|
      invariant blockMap == BlockIndex(blocks[..i])
    {
      assert blocks[..i + 1][..i] == blocks[..i];
      blockMap := blockMap[blocks[i].id := blocks[i]];
    }
    assert blocks[..|blocks|] == blocks;
  }

  // ---------------------------------------------------------------------------
  // getTextFromRelationships
  // ---------------------------------------------------------------------------

  /** What one child ID adds: its block's text and a space, or nothing when it does not resolve to text. */
  function ChildPart(id: string, blockMap: map<string, Block>): string {
    if id in blockMap && blockMap[id].text.Some? then blockMap[id].text.value + " " else ""
  }

  /** The text of a list of child IDs, in order. */
  function ChildrenText(ids: seq<string>, blockMap: map<string, Block>): string {
    if ids == [] then "" else ChildrenText(ids[..|ids| - 1], blockMap) + ChildPart(ids[|ids| - 1], blockMap)
  }

  /** The text of the relationships of the requested type, in order; other types add nothing. */
  function RelationshipsText(rels: seq<Relationship>, blockMap: map<string, Block>, relType: RelationshipType): string {
    if rels == [] then ""
    else
      var last := rels[|rels| - 1];
      RelationshipsText(rels[..|rels| - 1], blockMap, relType)
      + (if last.relType == relType then ChildrenText(last.ids, blockMap) else "")
  }

  /** `getTextFromRelationships(block, blockMap, relType)`: "" for a block without relationships. */
  function TextFromRelationships(block: Block, blockMap: map<string, Block>, relType: RelationshipType): string {
    if block.relationships.None? then "" else RelationshipsText(block.relationships.value, blockMap, relType)
  }

  /** The text of child IDs splits at any point into the texts of the two parts. */
  lemma {:induction false} ChildrenTextAppend(a: seq<string>, b: seq<string>, blockMap: map<string, Block>)
    ensures ChildrenText(a + b, blockMap) == ChildrenText(a, blockMap) + ChildrenText(b, blockMap)
    decreases |b|
  {
    if b == [] {
      assert a + b == a;
    } else {
      var init := b[..|b| - 1];
      ChildrenTextAppend(a, init, blockMap);
      assert (a + b)[..|a + b| - 1] == a + init;
      assert (a + b)[|a + b| - 1] == b[|b| - 1];
      ConcatAssoc(ChildrenText(a, blockMap), ChildrenText(init, blockMap), ChildPart(b[|b| - 1], blockMap));
    }
  }

  /** An ID that does not resolve, or resolves to a block without text, is skipped. */
  lemma SkipsUnresolved(a: seq<string>, id: string, b: seq<string>, blockMap: map<string, Block>)
    requires id !in blockMap || blockMap[id].text.None?
    ensures ChildrenText(a + [id] + b, blockMap) == ChildrenText(a + b, blockMap)
  {
    var ta, tb := ChildrenText(a, blockMap), ChildrenText(b, blockMap);
    assert ChildrenText([id], blockMap) == "" by {
      assert [id][..0] == [];
      assert ChildPart(id, blockMap) == "";
    }
    ChildrenTextAppend(a, [id], blockMap);
    assert ChildrenText(a + [id], blockMap) == ta + "" == ta;
    ChildrenTextAppend(a + [id], b, blockMap);
    ChildrenTextAppend(a, b, blockMap);
  }

  /** Every resolved child contributes its text followed by one space. */
  lemma ResolvedChildren(ids: seq<string>, blockMap: map<string, Block>, id: string)
    requires id in blockMap && blockMap[id].text.Some?
    ensures ChildrenText(ids + [id], blockMap) == ChildrenText(ids, blockMap) + blockMap[id].text.value + " "
  {
    assert (ids + [id])[..|ids|] == ids;
  }

  /** Relationships of another type contribute nothing. */
  lemma {:induction false} OtherTypesIgnored(rels: seq<Relationship>, blockMap: map<string, Block>, relType: RelationshipType)
    requires forall i :: 0 <= i < |rels| ==> rels[i].relType != relType
    ensures RelationshipsText(rels, blockMap, relType) == ""
  {
    if rels != [] {
      var init := rels[..|rels| - 1];
      assert forall i :: 0 <= i < |init| ==> init[i] == rels[i];
      OtherTypesIgnored(init, blockMap, relType);
    }
  }

  /** The inner loop of `getTextFromRelationships`: append the text of each resolved child. */
  method AppendChildrenText(text0: string, ids: seq<string>, blockMap: map<string, Block>) returns (text: string)
    ensures text == text0 + ChildrenText(ids, blockMap)
  {
    text := text0;
    for j := 0 to |ids|
      invariant text == text0 + ChildrenText(ids[..j], blockMap)
    {
      assert ids[..j + 1][..j] == ids[..j];
      var childId := ids[j];
      if childId in blockMap && blockMap[childId].text.Some? {
        text := text + blockMap[childId].text.value + " ";
      }
    }
    assert ids[..|ids|] == ids;
  }

  /** The nested loops of `getTextFromRelationships`. */
  method GetTextFromRelationships(block: Block, blockMap: map<string, Block>, relType: RelationshipType)
    returns (text: string)
    ensures text == TextFromRelationships(block, blockMap, relType)
  {
    text := "";
    if block.relationships.None? {
      return;
    }
    var rels := block.relationships.value;
    for r := 0 to |rels|
      invariant text == RelationshipsText(rels[..r], blockMap, relType)
    {
      assert rels[..r + 1][..r] == rels[..r];
      if rels[r].relType == relType {
        text := AppendChildrenText(text, rels[r].ids, blockMap);
      }
    }
    assert rels[..|rels|] == rels;
  }

  // ---------------------------------------------------------------------------
  // Key/value pairs
  // ---------------------------------------------------------------------------

  /** The value found through a list of VALUE ids: the text of the last one that resolves. */
  function ValueFromIds(ids: seq<string>, blockMap: map<string, Block>, current: string): string {
    if ids == [] then current
    else
      var before := ValueFromIds(ids[..|ids| - 1], blockMap, current);
      var id := ids[|ids| - 1];
      if id in blockMap then TextFromRelationships(blockMap[id], blockMap, CHILD) else before
  }

  /** The value found through the VALUE relationships of a key block, in order. */
  function ValueFromRelationships(rels: seq<Relationship>, blockMap: map<string, Block>): string {
    if rels == [] then ""
    else
      var before := ValueFromRelationships(rels[..|rels| - 1], blockMap);
      var last := rels[|rels| - 1];
      if last.relType == VALUE then ValueFromIds(last.ids, blockMap, before) else before
  }

  /** The raw value text of a key block: "" when it has no relationships or no VALUE target resolves. */
  function ValueText(block: Block, blockMap: map<string, Block>): string {
    if block.relationships.None? then "" else ValueFromRelationships(block.relationships.value, blockMap)
  }

  /** A KEY_VALUE_SET block whose entity types include KEY. */
  predicate IsKeyBlock(block: Block) {
    block.blockType == KEY_VALUE_SET && block.entityTypes.Some? && KEY in block.entityTypes.value
  }

  /** The raw key text of a block: the text of its CHILD relationships. */
  function KeyText(block: Block, blockMap: map<string, Block>): string {
    TextFromRelationships(block, blockMap, CHILD)
  }

  /** One step of the extraction: a key block with non-empty key text stores the trimmed pair. */
  function PutFormPair(pairs: map<string, string>, block: Block, blockMap: map<string, Block>): map<string, string> {
    if IsKeyBlock(block) && KeyText(block, blockMap) != "" then
      pairs[Trim(KeyText(block, blockMap)) := Trim(ValueText(block, blockMap))]
    else pairs
  }

  /** The pairs of a run of blocks, in order; a later block with the same trimmed key wins. */
  function FormPairsOf(blocks: seq<Block>, blockMap: map<string, Block>): map<string, string> {
    if blocks == [] then map[]
    else PutFormPair(FormPairsOf(blocks[..|blocks| - 1], blockMap), blocks[|blocks| - 1], blockMap)
  }

  /** What `analyzeDocumentForms` returns for the blocks of a response. */
  function FormPairs(blocks: seq<Block>): map<string, string> {
    FormPairsOf(blocks, BlockIndex(blocks))
  }

  /** The block is a KEY block whose non-empty key text trims to the key. */
  predicate StoresKey(block: Block, blockMap: map<string, Block>, key: string) {
    IsKeyBlock(block) && KeyText(block, blockMap) != "" && Trim(KeyText(block, blockMap)) == key
  }

  /** A key is present exactly when some KEY block has a non-empty key text that trims to it. */
  lemma {:induction false} FormPairsMembers(blocks: seq<Block>, blockMap: map<string, Block>, key: string)
    ensures key in FormPairsOf(blocks, blockMap) <==>
            exists i :: 0 <= i < |blocks| && StoresKey(blocks[i], blockMap, key)
  {
    if blocks != [] {
      var init := blocks[..|blocks| - 1];
      var last := blocks[|blocks| - 1];
      FormPairsMembers(init, blockMap, key);
      assert key in FormPairsOf(blocks, blockMap) <==> key in FormPairsOf(init, blockMap) || StoresKey(last, blockMap, key);
      assert forall i :: 0 <= i < |init| ==> init[i] == blocks[i];
    }
  }

  /**
   * A key carries the trimmed value text of the last block that stores it: some block
   * stores the key, the entry is that block's trimmed value, and no later block stores it.
   */
  lemma {:induction false} FormPairsValue(blocks: seq<Block>, blockMap: map<string, Block>, key: string)
    requires key in FormPairsOf(blocks, blockMap)
    ensures exists i :: 0 <= i < |blocks| && StoresKey(blocks[i], blockMap, key)
              && FormPairsOf(blocks, blockMap)[key] == Trim(ValueText(blocks[i], blockMap))
              && forall j :: i < j < |blocks| ==> !StoresKey(blocks[j], blockMap, key)
  {
    var init := blocks[..|blocks| - 1];
    var last := blocks[|blocks| - 1];
    PutFormPairLookup(FormPairsOf(init, blockMap), last, blockMap, key);
    if !StoresKey(last, blockMap, key) {
      FormPairsValue(init, blockMap, key);
      var i :| 0 <= i < |init| && StoresKey(init[i], blockMap, key)
                && FormPairsOf(init, blockMap)[key] == Trim(ValueText(init[i], blockMap))
                && forall j :: i < j < |init| ==> !StoresKey(init[j], blockMap, key);
      LastStoreExtends(blocks, init, blockMap, key, i);
    }
  }

  /** A key whose last store lies in the prefix keeps that store when the last block does not store it. */
  lemma LastStoreExtends(blocks: seq<Block>, init: seq<Block>, blockMap: map<string, Block>, key: string, i: int)
    requires blocks != [] && init == blocks[..|blocks| - 1]
    requires 0 <= i < |init|
    requires !StoresKey(blocks[|blocks| - 1], blockMap, key)
    requires forall j :: i < j < |init| ==> !StoresKey(init[j], blockMap, key)
    ensures forall j :: i < j < |blocks| ==> !StoresKey(blocks[j], blockMap, key)
  {
    forall j | i < j < |blocks|
      ensures !StoresKey(blocks[j], blockMap, key)
    {
      if j < |blocks| - 1 {
        assert init[j] == blocks[j];
      }
    }
  }

  /** Storing one block either sets the key it stores or leaves the looked-up key as it was. */
  lemma PutFormPairLookup(pairs: map<string, string>, block: Block, blockMap: map<string, Block>, key: string)
    ensures StoresKey(block, blockMap, key) ==>
              key in PutFormPair(pairs, block, blockMap) && PutFormPair(pairs, block, blockMap)[key] == Trim(ValueText(block, blockMap))
    ensures !StoresKey(block, blockMap, key) ==>
              (key in PutFormPair(pairs, block, blockMap) <==> key in pairs)
              && (key in pairs ==> PutFormPair(pairs, block, blockMap)[key] == pairs[key])
  {
  }

  /** Every key and every value of the result is trimmed. */
  lemma {:induction false} FormPairsTrimmed(blocks: seq<Block>, blockMap: map<string, Block>)
    ensures forall key :: key in FormPairsOf(blocks, blockMap) ==>
              IsTrimmed(key) && IsTrimmed(FormPairsOf(blocks, blockMap)[key])
  {
    if blocks != [] {
      FormPairsTrimmed(blocks[..|blocks| - 1], blockMap);
    }
  }

  /** Blocks that are not KEY_VALUE_SET blocks tagged KEY never add an entry. */
  lemma {:induction false} OnlyKeyBlocksCount(blocks: seq<Block>, blockMap: map<string, Block>)
    requires forall i :: 0 <= i < |blocks| ==> !IsKeyBlock(blocks[i])
    ensures FormPairsOf(blocks, blockMap) == map[]
  {
    if blocks != [] {
      var init := blocks[..|blocks| - 1];
      assert forall i :: 0 <= i < |init| ==> init[i] == blocks[i];
      OnlyKeyBlocksCount(init, blockMap);
    }
  }

  /** The inner loops over the VALUE relationships of a key block. */
  method FindValue(block: Block, blockMap: map<string, Block>) returns (value: string)
    ensures value == ValueText(block, blockMap)
  {
    value := "";
    if block.relationships.None? {
      return;
    }
    var rels := block.relationships.value;
    for r := 0 to |rels|
      invariant value == ValueFromRelationships(rels[..r], blockMap)
    {
      assert rels[..r + 1][..r] == rels[..r];
      if rels[r].relType == VALUE {
        var ids := rels[r].ids;
        ghost var before := value;
        for j := 0 to |ids|
          invariant value == ValueFromIds(ids[..j], blockMap, before)
        {
          assert ids[..j + 1][..j] == ids[..j];
          if ids[j] in blockMap {
            value := GetTextFromRelationships(blockMap[ids[j]], blockMap, CHILD);
          }
        }
        assert ids[..|ids|] == ids;
      }
    }
    assert rels[..|rels|] == rels;
  }

  /** `analyzeDocumentForms` once the response is in hand. */
  method AnalyzeDocumentForms(blocks: seq<Block>) returns (keyValuePairs: map<string, string>)
    ensures keyValuePairs == FormPairs(blocks)
  {
    var blockMap := BuildBlockMap(blocks);
    keyValuePairs := map[];
    for i := 0 to |blocks|
      invariant keyValuePairs == FormPairsOf(blocks[..i], blockMap)
    {
      assert blocks[..i + 1][..i] == blocks[..i];
      var block := blocks[i];
      if block.blockType == KEY_VALUE_SET && block.entityTypes.Some? && KEY in block.entityTypes.value {
        var key := GetTextFromRelationships(block, blockMap, CHILD);
        var value := FindValue(block, blockMap);
        if key != "" {
          keyValuePairs := keyValuePairs[Trim(key) := Trim(value)];
        }
      }
    }
    assert blocks[..|blocks|] == blocks;
  }
}
