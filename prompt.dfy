/** The instruction text sent with the two images (App.tsx:63-72). */
module Prompt {
  import opened JsStrings

  /** The four descriptive choices; `""` means the user picked nothing. */
  datatype Options = Options(background: string, clothing: string, expression: string, productPosition: string)

  const DefaultBackground := "studio chuyên nghiệp hiện đại"
  const DefaultClothing := "phù hợp với sản phẩm và bối cảnh"
  const DefaultExpression := "tự tin và chuyên nghiệp"
  const DefaultProductPosition := "nổi bật một cách tự nhiên"

  /** The slots' default phrases, in template order. */
  const DefaultPhrases: seq<string> := [DefaultBackground, DefaultClothing, DefaultExpression, DefaultProductPosition]

  /** The literal pieces of the template around its four substitutions. */
  const PromptChunks: seq<string> := [
    "Yêu cầu: Tạo một ảnh quảng cáo.\nĐầu vào: ảnh 1 (người mẫu), ảnh 2 (sản phẩm).\nMô tả ảnh kết quả:\n- Người mẫu: Giống hệt người trong ảnh 1.\n- Sản phẩm: Giống hệt sản phẩm trong ảnh 2.\n- Bối cảnh: ",
    ".\n- Trang phục người mẫu: ",
    ".\n- Biểu cảm người mẫu: ",
    ".\n- Vị trí sản phẩm: ",
    ".\nLưu ý: Kết quả trả về phải là một file ảnh. Không trả về văn bản."
  ]

  /** The user's choices, in template order. */
  function Fields(o: Options): seq<string>
  {
    [o.background, o.clothing, o.expression, o.productPosition]
  }

  /** JavaScript's `value || fallback` on strings: only `""` is falsy. */
  function OrDefault(value: string, fallback: string): string
  {
    if value != "" then value else fallback
  }

  /** The four substituted values. */
  function Slots(o: Options): seq<string>
  {
    [OrDefault(o.background, DefaultBackground), OrDefault(o.clothing, DefaultClothing),
     OrDefault(o.expression, DefaultExpression), OrDefault(o.productPosition, DefaultProductPosition)]
  }

  function ComposePrompt(o: Options): string
  {
    Interpolate(PromptChunks, Slots(o))
  }

  /** Where slot `k`'s value begins in the composed prompt. */
  function SlotOffset(o: Options, k: nat): nat
    requires k < 4
  {
    SlotStart(PromptChunks, Slots(o), k)
  }

  /**
   * Slot `k` of the prompt holds the user's choice verbatim when it is
   * non-empty and the slot's default phrase when it is empty, right after
   * the slot's fixed label.
   */
  lemma PromptSlot(o: Options, k: nat)
    requires k < 4
    ensures var p, at, v := ComposePrompt(o), SlotOffset(o, k), Slots(o)[k];
      |PromptChunks[k]| <= at && at + |v| <= |p| &&
      p[at - |PromptChunks[k]|..at] == PromptChunks[k] &&
      p[at..at + |v|] == v &&
      v == (if Fields(o)[k] != "" then Fields(o)[k] else DefaultPhrases[k])
  {
    var chunks, values := PromptChunks, Slots(o);
    assert |chunks| == |values| + 1;
    ChunkAt(chunks, values, k);
    ValueAt(chunks, values, k);
  }

  /** The prompt opens with the fixed description of the two input images, whatever the options are. */
  lemma PromptOpening(o: Options)
    ensures var p := ComposePrompt(o);
      |PromptChunks[0]| <= |p| && p[..|PromptChunks[0]|] == PromptChunks[0]
  {
    var chunks, values := PromptChunks, Slots(o);
    assert |chunks| == |values| + 1;
    ChunkAt(chunks, values, 0);
  }

  /** The prompt closes with the instruction to return an image and no text, whatever the options are. */
  lemma PromptClosing(o: Options)
    ensures var p := ComposePrompt(o);
      |PromptChunks[4]| <= |p| && p[|p| - |PromptChunks[4]|..] == PromptChunks[4]
  {
    var chunks, values := PromptChunks, Slots(o);
    assert |chunks| == |values| + 1;
    ChunkAt(chunks, values, 4);
  }

  /** Leaving a choice empty is the same as choosing its default phrase. */
  lemma EmptyMeansDefault(o: Options)
    ensures ComposePrompt(o) == ComposePrompt(Options(
      OrDefault(o.background, DefaultBackground), OrDefault(o.clothing, DefaultClothing),
      OrDefault(o.expression, DefaultExpression), OrDefault(o.productPosition, DefaultProductPosition)))
    ensures ComposePrompt(Options("", "", "", "")) ==
      ComposePrompt(Options(DefaultBackground, DefaultClothing, DefaultExpression, DefaultProductPosition))
  {
  }
}
