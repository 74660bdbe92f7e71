/**
 * The content handling of the Bedrock Converse client: which block a file becomes,
 * the order of the blocks in a user message, and the text read back from a response.
 *
 * Reading a file is a parameter `readFile`: the file's bytes, or None when reading
 * throws an `IOException`. The Converse call itself is outside the model.
 */
module BedrockLlm {
  import opened Values
  import opened JavaText

  datatype ImageFormat = PNG | JPEG | GIF | WEBP

  /** The content blocks the client builds; a text block's text may be null. */
  datatype ContentBlock =
    | TextBlock(text: Option<string>)
    | ImageBlock(format: ImageFormat, bytes: seq<bv8>)
    | DocumentBlock(name: string, bytes: seq<bv8>)  // always of format PDF

  // ---------------------------------------------------------------------------
  // Formats
  // ---------------------------------------------------------------------------

  /** `parseImageFormat(format)`: null and unknown names give PNG; the match ignores case. */
  function ParseImageFormat(format: Option<string>): ImageFormat {
    if format.None? then PNG
    else
      var lower := ToLower(format.value);
      if lower == "jpeg" || lower == "jpg" then JPEG
      else if lower == "gif" then GIF
      else if lower == "webp" then WEBP
      else PNG
  }

  /** Each format is chosen by exactly the names listed for it, in any letter case. */
  lemma ParseImageFormatCases(format: Option<string>)
    ensures ParseImageFormat(format) == JPEG <==>
              format.Some? && (EqualsIgnoreCase(format.value, "jpeg") || EqualsIgnoreCase(format.value, "jpg"))
    ensures ParseImageFormat(format) == GIF <==> format.Some? && EqualsIgnoreCase(format.value, "gif")
    ensures ParseImageFormat(format) == WEBP <==> format.Some? && EqualsIgnoreCase(format.value, "webp")
    ensures format.None? ==> ParseImageFormat(format) == PNG
  {
    assert ToLower("jpeg") == "jpeg" && ToLower("jpg") == "jpg";
    assert ToLower("gif") == "gif" && ToLower("webp") == "webp";
  }

  /** A file path names a PDF document when it ends in ".pdf" in any letter case. */
  predicate IsPdfPath(filePath: string) {
    EndsWith(ToLower(filePath), ".pdf")
  }

  /** The image format of a lower-cased file name, by its extension; PNG for any other. */
  function ImageFormatOfName(fileNameLower: string): ImageFormat {
    if EndsWith(fileNameLower, ".jpg") || EndsWith(fileNameLower, ".jpeg") then JPEG
    else if EndsWith(fileNameLower, ".gif") then GIF
    else if EndsWith(fileNameLower, ".webp") then WEBP
    else PNG
  }

  /** A text that ends in a suffix ends in its last character. */
  lemma EndsWithLast(name: string, suffix: string)
    ensures suffix != [] && EndsWith(name, suffix) ==> name[|name| - 1] == suffix[|suffix| - 1]
  {
    if suffix != [] && EndsWith(name, suffix) {
      assert name[|name| - 1] == name[|name| - |suffix|..][|suffix| - 1];
    }
  }

  /**
   * The extensions do not overlap (their last letters differ), so each format is
   * chosen exactly by its own extensions, whatever the order of the tests.
   */
  lemma ImageFormatOfNameCases(name: string)
    ensures ImageFormatOfName(name) == JPEG <==> EndsWith(name, ".jpg") || EndsWith(name, ".jpeg")
    ensures ImageFormatOfName(name) == GIF <==> EndsWith(name, ".gif")
    ensures ImageFormatOfName(name) == WEBP <==> EndsWith(name, ".webp")
  {
    EndsWithLast(name, ".jpg");
    EndsWithLast(name, ".jpeg");
    EndsWithLast(name, ".gif");
    EndsWithLast(name, ".webp");
  }

  /**
   * `Path.of(filePath).getFileName()`: the part after the last '/', that is the longest
   * suffix without a '/' (the whole path when it has none).
   */
  function FileName(filePath: string): (r: string)
    ensures '/' !in r && EndsWith(filePath, r)
    ensures |r| == |filePath| || filePath[|filePath| - |r| - 1] == '/'
  {
    if filePath == [] || filePath[|filePath| - 1] == '/' then []
    else
      var init := filePath[..|filePath| - 1];
      var c := filePath[|filePath| - 1];
      var f := FileName(init);
      assert filePath == init + [c];
      LastSegmentStep(init, c, f);
      f + [c]
  }

  /** Adding a character other than '/' to a path adds it to the path's last segment. */
  lemma LastSegmentStep(init: string, c: char, f: string)
    requires c != '/' && '/' !in f && EndsWith(init, f)
    requires |f| == |init| || init[|init| - |f| - 1] == '/'
    ensures '/' !in f + [c] && EndsWith(init + [c], f + [c])
    ensures |f| == |init| || (init + [c])[|init| - |f| - 1] == '/'
  {
    assert (init + [c])[|init| - |f|..] == init[|init| - |f|..] + [c];
    assert |f| < |init| ==> (init + [c])[|init| - |f| - 1] == init[|init| - |f| - 1];
  }

  // ---------------------------------------------------------------------------
  // Document names
  // ---------------------------------------------------------------------------

  /** `fileName.replace(".pdf", "").replace(".PDF", "")` */
  function DocumentName(fileName: string): string {
    ReplaceAll(ReplaceAll(fileName, ".pdf", ""), ".PDF", "")
  }

  /**
   * In a text whose last |target| characters are the only place the target's first
   * character occurs, the target is removed exactly when the text ends in it.
   */
  lemma {:induction false} ReplaceAtEnd(stem: string, tail: string, target: string)
    requires target != [] && target[0] !in stem && |tail| == |target|
    ensures ReplaceAll(stem + tail, target, "") == stem + (if tail == target then "" else tail)
    decreases |stem|
  {
    var s := stem + tail;
    if stem == [] {
      assert s == tail && s[..|target|] == tail;
      if tail == target {
        assert s[|target|..] == [];
      } else {
        assert |s[1..]| < |target|;
      }
    } else {
      assert s[..|target|][0] == stem[0];
      assert s[1..] == stem[1..] + tail;
      ReplaceAtEnd(stem[1..], tail, target);
      assert [stem[0]] + stem[1..] == stem;
    }
  }

  /** A name whose only dot starts ".pdf" or ".PDF" loses that extension. */
  lemma DocumentNameStripsExtension(stem: string)
    requires '.' !in stem
    ensures DocumentName(stem + ".pdf") == stem
    ensures DocumentName(stem + ".PDF") == stem
  {
    ReplaceAtEnd(stem, ".pdf", ".pdf");
    assert stem + "" == stem;
    ReplaceAbsent(stem, ".PDF", "");
    ReplaceAtEnd(stem, ".PDF", ".pdf");
    ReplaceAtEnd(stem, ".PDF", ".PDF");
  }

  /**
   * An extension in other letter cases is kept: "report.Pdf" is sent as a document,
   * under the name "report.Pdf".
   */
  lemma DocumentNameKeepsMixedCase(stem: string)
    requires '.' !in stem
    ensures IsPdfPath(stem + ".Pdf")
    ensures DocumentName(stem + ".Pdf") == stem + ".Pdf"
  {
    var s := stem + ".Pdf";
    assert ToLower(s)[|s| - 4..] == ".pdf";
    ReplaceAtEnd(stem, ".Pdf", ".pdf");
    ReplaceAtEnd(stem, ".Pdf", ".PDF");
  }

  // ---------------------------------------------------------------------------
  // Content blocks
  // ---------------------------------------------------------------------------

  /**
   * `createFileContentBlock(filePath)`: a document block for a ".pdf" path, an image
   * block otherwise; None when the file cannot be read.
   */
  function FileContentBlock(filePath: string, readFile: string -> Option<seq<bv8>>): (r: Option<ContentBlock>)
    ensures r.Some? <==> readFile(filePath).Some?
    ensures r.Some? && IsPdfPath(filePath) ==>
              r.value == DocumentBlock(DocumentName(FileName(filePath)), readFile(filePath).value)
    ensures r.Some? && !IsPdfPath(filePath) ==>
              r.value == ImageBlock(ImageFormatOfName(ToLower(FileName(filePath))), readFile(filePath).value)
  {
    match readFile(filePath)
    case None => None
    case Some(bytes) =>
      if IsPdfPath(filePath) then Some(DocumentBlock(DocumentName(FileName(filePath)), bytes))
      else Some(ImageBlock(ImageFormatOfName(ToLower(FileName(filePath))), bytes))
  }

  /**
   * The content list `chat` sends: the file block first when a non-empty path is
   * given and the file can be read, and the prompt's text block always last.
   */
  method ChatContent(prompt: Option<string>, filePath: Option<string>, readFile: string -> Option<seq<bv8>>)
    returns (contentBlocks: seq<ContentBlock>)
    ensures 1 <= |contentBlocks| <= 2
    ensures contentBlocks[|contentBlocks| - 1] == TextBlock(prompt)
    ensures |contentBlocks| == 2 <==> IsPresent(filePath) && readFile(filePath.value).Some?
    ensures |contentBlocks| == 2 ==> Some(contentBlocks[0]) == FileContentBlock(filePath.value, readFile)
  {
    contentBlocks := [];
    if filePath.Some? && filePath.value != "" {
      var fileBlock := FileContentBlock(filePath.value, readFile);
      if fileBlock.Some? {
        contentBlocks := contentBlocks + [fileBlock.value];
      }
    }
    contentBlocks := contentBlocks + [TextBlock(prompt)];
  }

  // ---------------------------------------------------------------------------
  // Response text
  // ---------------------------------------------------------------------------

  datatype Message = Message(content: seq<ContentBlock>)
  datatype ConverseOutput = ConverseOutput(message: Option<Message>)
  datatype ConverseResponse = ConverseResponse(output: Option<ConverseOutput>)

  /** The texts of the text blocks whose text is not null, concatenated in order. */
  function ContentText(blocks: seq<ContentBlock>): string {
    if blocks == [] then ""
    else
      var last := blocks[|blocks| - 1];
      ContentText(blocks[..|blocks| - 1]) + (if last.TextBlock? && last.text.Some? then last.text.value else "")
  }

  /** The response text of a list of blocks is the response text of its parts, in order. */
  lemma {:induction false} ContentTextAppend(a: seq<ContentBlock>, b: seq<ContentBlock>)
    ensures ContentText(a + b) == ContentText(a) + ContentText(b)
    decreases |b|
  {
    if b == [] {
      assert a + b == a;
    } else {
      var init, last := b[..|b| - 1], b[|b| - 1];
      ContentTextAppend(a, init);
      assert (a + b)[..|a + b| - 1] == a + init;
      assert (a + b)[|a + b| - 1] == last;
      ConcatAssoc(ContentText(a), ContentText(init),
                  if last.TextBlock? && last.text.Some? then last.text.value else "");
    }
  }

  /** Image and document blocks, and text blocks with null text, add nothing. */
  lemma {:induction false} ContentTextWithoutText(blocks: seq<ContentBlock>)
    requires forall i :: 0 <= i < |blocks| ==> !(blocks[i].TextBlock? && blocks[i].text.Some?)
    ensures ContentText(blocks) == ""
  {
    if blocks != [] {
      var init := blocks[..|blocks| - 1];
      assert forall i :: 0 <= i < |init| ==> init[i] == blocks[i];
      ContentTextWithoutText(init);
    }
  }

  /** `extractResponseText(response)`: "" without an output message. */
  function ResponseText(response: ConverseResponse): (r: string)
    ensures response.output.None? || response.output.value.message.None? ==> r == ""
  {
    if response.output.None? || response.output.value.message.None? then ""
    else ContentText(response.output.value.message.value.content)
  }

  /** The loop of `extractResponseText`, appending the non-null texts to a string builder. */
  method ExtractResponseText(response: ConverseResponse) returns (result: string)
    ensures result == ResponseText(response)
  {
    if response.output.None? || response.output.value.message.None? {
      return "";
    }
    var content := response.output.value.message.value.content;
    result := "";
    for i := 0 to |content|
      invariant result == ContentText(content[..i])
    {
      assert content[..i + 1][..i] == content[..i];
      if content[i].TextBlock? && content[i].text.Some? {
        result := result + content[i].text.value;
      }
    }
    assert content[..|content|] == content;
  }
}
