/** `webcam.service.impl.DeepSeekPraiseServiceImpl`: turns face attributes into a prompt,
    asks DeepSeek's chat endpoint for a compliment, and falls back to one of five fixed
    compliments whenever there is nothing to ask about or nothing usable comes back.
    The HTTP exchange and `Math.random()` are inputs. */
module DeepSeekPraise {
  import opened Support
  import opened Json

  const Header: string := "请根据以下人脸属性，生成一段真诚、温暖的夸奖话语（60-80字）：\n"
  const Requirements: string :=
    "\n要求：\n" + "1. 语言亲切、自然，避免过度夸张\n" + "2. 结合具体属性进行夸奖\n" + "3. 60-80字左右\n" +
    "4. 不要使用「您」，使用「你」即可\n" + "5. 直接输出夸奖内容，不要有任何前缀或解释\n"

  /** The optional prompt lines, in the order they are written: the attribute key, the
      label in front of its value and the text after it. */
  const PromptFields: seq<(string, string, string)> := [
    ("gender", "性别：", "\n"),
    ("age", "年龄：", "岁\n"),
    ("smile", "笑容：", "\n"),
    ("eyestatus", "眼镜：", "\n")
  ]

  /** `StringBuilder.append(Object)` writes `String.valueOf(value)`: a string as itself,
      a number as its digits, null as "null". An array or object is rendered as "" here,
      where Java would append its JSON text. */
  function Rendered(value: Json): string
  {
    AsText(value)
  }

  /** The line one attribute contributes: its label, value and ending when the key is
      present, nothing otherwise. */
  function Line(attributes: map<string, Json>, field: (string, string, string)): string
  {
    if field.0 in attributes then field.1 + Rendered(attributes[field.0]) + field.2 else ""
  }

  /** The lines of a run of fields, in order. */
  function Lines(attributes: map<string, Json>, fields: seq<(string, string, string)>): string
  {
    if fields == [] then "" else Lines(attributes, fields[..|fields| - 1]) + Line(attributes, fields[|fields| - 1])
  }

  /** The prompt for a map of attributes: header, the lines of the attributes present,
      then the requirements. */
  function Prompt(attributes: map<string, Json>): string
  {
    Header + Lines(attributes, PromptFields) + Requirements
  }

  /** `buildPrompt(faceAttributes)`: appends to a StringBuilder step by step. */
  method BuildPrompt(attributes: map<string, Json>) returns (prompt: string)
    ensures prompt == Prompt(attributes)
  {
    LinesUnfolded(attributes);
    prompt := Header;
    ghost var lines := "";
    if "gender" in attributes {
      AppendLine(prompt, "性别：", Rendered(attributes["gender"]), "\n");
      prompt := prompt + "性别：" + Rendered(attributes["gender"]) + "\n";
    }
    Regroup(Header, lines, LineAt(attributes, 0));
    lines := lines + LineAt(attributes, 0);
    assert prompt == Header + lines;
    if "age" in attributes {
      AppendLine(prompt, "年龄：", Rendered(attributes["age"]), "岁\n");
      prompt := prompt + "年龄：" + Rendered(attributes["age"]) + "岁\n";
    }
    Regroup(Header, lines, LineAt(attributes, 1));
    lines := lines + LineAt(attributes, 1);
    assert prompt == Header + lines;
    if "smile" in attributes {
      AppendLine(prompt, "笑容：", Rendered(attributes["smile"]), "\n");
      prompt := prompt + "笑容：" + Rendered(attributes["smile"]) + "\n";
    }
    Regroup(Header, lines, LineAt(attributes, 2));
    lines := lines + LineAt(attributes, 2);
    assert prompt == Header + lines;
    if "eyestatus" in attributes {
      AppendLine(prompt, "眼镜：", Rendered(attributes["eyestatus"]), "\n");
      prompt := prompt + "眼镜：" + Rendered(attributes["eyestatus"]) + "\n";
    }
    Regroup(Header, lines, LineAt(attributes, 3));
    lines := lines + LineAt(attributes, 3);
    assert prompt == Header + lines;
    assert lines == Lines(attributes, PromptFields);
    prompt := prompt + Requirements;
  }

  /** Appending to a concatenation appends to its last part. */
  lemma Regroup(x: string, y: string, z: string)
    ensures x + y + z == x + (y + z)
  {
  }

  /** The line of the `i`-th field. */
  function LineAt(attributes: map<string, Json>, i: nat): (line: string)
    requires i < |PromptFields|
    ensures PromptFields[i].0 in attributes ==>
              line == PromptFields[i].1 + Rendered(attributes[PromptFields[i].0]) + PromptFields[i].2
    ensures PromptFields[i].0 !in attributes ==> line == ""
  {
    Line(attributes, PromptFields[i])
  }

  /** Appending a label, a value and an ending one after another appends the line. */
  lemma AppendLine(prompt: string, caption: string, value: string, ending: string)
    ensures prompt + caption + value + ending == prompt + (caption + value + ending)
  {
  }

  /** The prompt's lines, one field at a time. */
  lemma LinesUnfolded(attributes: map<string, Json>)
    ensures Lines(attributes, PromptFields[..1]) == Line(attributes, PromptFields[0])
    ensures Lines(attributes, PromptFields[..2]) == Lines(attributes, PromptFields[..1]) + Line(attributes, PromptFields[1])
    ensures Lines(attributes, PromptFields[..3]) == Lines(attributes, PromptFields[..2]) + Line(attributes, PromptFields[2])
    ensures Lines(attributes, PromptFields) == Lines(attributes, PromptFields[..3]) + Line(attributes, PromptFields[3])
  {
    var f := PromptFields;
    assert f[..1][..0] == [] && f[..2][..1] == f[..1] && f[..3][..2] == f[..2] && f[..3] == f[..|f| - 1];
  }

  /** With none of the four attributes the prompt is the header and the requirements alone. */
  lemma PromptWithoutAttributes(attributes: map<string, Json>)
    requires forall i :: 0 <= i < |PromptFields| ==> PromptFields[i].0 !in attributes
    ensures Prompt(attributes) == Header + Requirements
  {
    LinesUnfolded(attributes);
    assert PromptFields[0].0 !in attributes && PromptFields[1].0 !in attributes;
    assert PromptFields[2].0 !in attributes && PromptFields[3].0 !in attributes;
  }

  /** A string contains its first part. */
  lemma ContainsLeft(x: string, y: string)
    ensures Contains(x + y, x)
  {
    assert (x + y)[..|x|] == x;
  }

  /** A string contains its last part. */
  lemma ContainsRight(x: string, y: string)
    ensures Contains(x + y, y)
  {
    assert (x + y)[|x|..|x| + |y|] == y;
    ContainsAt(x + y, y, |x|);
  }

  /** Every attribute present gets its line in the prompt, with its label and value. */
  lemma PromptShowsAttribute(attributes: map<string, Json>, i: nat)
    requires i < |PromptFields| && PromptFields[i].0 in attributes
    ensures Contains(Prompt(attributes),
                     PromptFields[i].1 + Rendered(attributes[PromptFields[i].0]) + PromptFields[i].2)
  {
    LinesUnfolded(attributes);
    var line := Line(attributes, PromptFields[i]);
    var lines := Lines(attributes, PromptFields);
    ContainsLeft(Header + lines, Requirements);
    ContainsRight(Header, lines);
    ContainsTransitive(Prompt(attributes), Header + lines, lines);
    var upTo := PromptFields[..i + 1];
    // the lines up to field i end with its line and open the whole run
    assert Lines(attributes, upTo) == Lines(attributes, upTo[..i]) + line by {
      assert upTo[..|upTo| - 1] == upTo[..i] && upTo[|upTo| - 1] == PromptFields[i];
    }
    ContainsRight(Lines(attributes, upTo[..i]), line);
    if i < 3 {
      ContainsLeft(Lines(attributes, PromptFields[..3]), Line(attributes, PromptFields[3]));
      if i < 2 {
        ContainsLeft(Lines(attributes, PromptFields[..2]), Line(attributes, PromptFields[2]));
        ContainsTransitive(lines, Lines(attributes, PromptFields[..3]), Lines(attributes, PromptFields[..2]));
        if i < 1 {
          ContainsLeft(Lines(attributes, PromptFields[..1]), Line(attributes, PromptFields[1]));
          ContainsTransitive(lines, Lines(attributes, PromptFields[..2]), Lines(attributes, PromptFields[..1]));
        }
      }
      ContainsTransitive(lines, Lines(attributes, upTo), line);
    } else {
      assert upTo == PromptFields;
    }
    ContainsTransitive(Prompt(attributes), lines, line);
  }

  /** Keys other than the four named ones leave the prompt as it is. */
  lemma PromptIgnoresOtherKeys(attributes: map<string, Json>, key: string, value: Json)
    requires forall i :: 0 <= i < |PromptFields| ==> PromptFields[i].0 != key
    ensures Prompt(attributes[key := value]) == Prompt(attributes)
  {
    LinesUnfolded(attributes);
    LinesUnfolded(attributes[key := value]);
    assert PromptFields[0].0 != key && PromptFields[1].0 != key;
    assert PromptFields[2].0 != key && PromptFields[3].0 != key;
  }

  /** `extractPraise(apiResponse)`: `choices[0].message.content`, trimmed; None (null) when
      the body is null, is not JSON, or lacks any step of that path. */
  function ExtractPraise(response: Option<Body>): (r: Option<string>)
    ensures r.Some? <==>
              response.Some? && response.value.parsed.Node? &&
              Has(response.value.parsed.root, "choices") &&
              IsNonEmptyArray(response.value.parsed.root.fields["choices"]) &&
              Has(response.value.parsed.root.fields["choices"].items[0], "message") &&
              Has(response.value.parsed.root.fields["choices"].items[0].fields["message"], "content")
    ensures r.Some? ==>
              r.value == Trim(AsText(response.value.parsed.root.fields["choices"].items[0].fields["message"].fields["content"]))
  {
    if response.None? || response.value.parsed.Malformed? then None
    else
      var choices := Get(response.value.parsed.root, "choices");
      if choices.Some? && IsNonEmptyArray(choices.value) then
        var message := Get(choices.value.items[0], "message");
        if message.Some? then
          var content := Get(message.value, "content");
          if content.Some? then Some(Trim(AsText(content.value))) else None
        else None
      else None
  }

  /** The five fixed compliments. */
  const FallbackPraises: seq<string> := [
    "你的气质真好，笑容很有感染力，给人一种很舒服的感觉。" + "无论是外在形象还是内在气质，都让人印象深刻，相信你在生活中一定是个很有魅力的人！",
    "你看起来真的很棒！面部轮廓分明，五官协调，整体给人一种精神饱满的感觉。" + "特别是你的笑容，温暖又自然，一定能给身边的人带来很多正能量。",
    "你的气质很出众，看起来是个自信又友善的人。你的面部特征很有特点，给人留下深刻印象。" + "保持这份自信和笑容，你一定会越来越有魅力！",
    "你的外表真的很有亲和力，笑起来特别好看！整体气质给人一种温暖、舒适的感觉。" + "相信在生活中，你一定是个很受欢迎的人，继续保持这份美好！",
    "你看上去精神状态很好，气质优雅大方。你的笑容很真诚，眼神中透露出自信，这些都是非常加分的特质。" + "相信你在人群中一定很容易成为焦点！"
  ]

  /** `getFallbackPraise()`: `(int) (Math.random() * 5)` picks one of the five, where `draw`
      is the value `Math.random()` returned, in [0, 1). */
  function FallbackPraise(draw: real): (r: string)
    requires 0.0 <= draw < 1.0
    ensures r in FallbackPraises && r != []
  {
    var index := (draw * (|FallbackPraises| as real)).Floor;
    FallbackPraises[index]
  }

  /** What `callDeepSeekAPI` yields: the response body (possibly null), or a failure
      (rethrown as RuntimeException and caught by the caller). */
  datatype ChatReply = Answered(body: Option<Body>) | Failed(message: string)

  /** The praise `generatePraise` returns once it has asked: the extracted text when it is
      not blank, else None (a fallback follows). */
  function UsablePraise(reply: ChatReply): (r: Option<string>)
    ensures r.Some? ==> r.value != [] && !IsBlank(r.value)
  {
    if reply.Answered? && ExtractPraise(reply.body).Some? && !IsBlank(ExtractPraise(reply.body).value)
    then ExtractPraise(reply.body)
    else None
  }

  /** `generatePraise(faceAttributes)`; `called` records whether the API was asked.
      Never empty: either a usable reply or one of the fallbacks. */
  method GeneratePraise(attributes: Option<map<string, Json>>, chat: string -> ChatReply, draw: real)
    returns (praise: string, called: bool)
    requires 0.0 <= draw < 1.0
    ensures praise != []
    ensures called <==> attributes.Some? && |attributes.value| > 0
    ensures !called ==> praise == FallbackPraise(draw)
    ensures called ==> var usable := UsablePraise(chat(Prompt(attributes.value)));
                       praise == if usable.Some? then usable.value else FallbackPraise(draw)
  {
    if attributes.None? || |attributes.value| == 0 {
      return FallbackPraise(draw), false;
    }
    var prompt := BuildPrompt(attributes.value);
    var reply := chat(prompt);
    called := true;
    if reply.Failed? {
      return FallbackPraise(draw), called;
    }
    var extracted := ExtractPraise(reply.body);
    if extracted.None? || IsBlank(extracted.value) {
      return FallbackPraise(draw), called;
    }
    praise := extracted.value;
  }
}
