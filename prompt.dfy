/**
 * Prompt construction: the style lookup, the outfit description and the one-sentence
 * template that together make the text sent beside the photo.
 */
module Prompt {
  import opened Text

  /** The style values the style selector offers, in its order; the first is the default. */
  const Styles: seq<string> :=
    ["photorealistic", "fantasy-art", "cyberpunk", "watercolor", "anime", "cartoon"]

  /** The clause each entry of Styles stands for, position by position. */
  const Clauses: seq<string> := [
    "A photorealistic image",
    "A fantasy art style digital painting",
    "An image in a cyberpunk style with neon lighting and futuristic elements",
    "A watercolor painting",
    "An anime style image",
    "A cartoon style image"
  ]

  /** The style lookup: every string gets one of the six clauses, unknown ones the photorealistic one. */
  function StyleClause(style: string): (r: string)
    ensures r in Clauses
    ensures style !in Styles ==> r == Clauses[0]
  {
    if style == "fantasy-art" then "A fantasy art style digital painting"
    else if style == "cyberpunk" then "An image in a cyberpunk style with neon lighting and futuristic elements"
    else if style == "watercolor" then "A watercolor painting"
    else if style == "anime" then "An anime style image"
    else if style == "cartoon" then "A cartoon style image"
    else "A photorealistic image"
  }

  /** The lookup agrees with the table entry by entry. */
  lemma StyleClauseTable()
    ensures forall k :: 0 <= k < |Styles| ==> StyleClause(Styles[k]) == Clauses[k]
  {
    assert StyleClause(Styles[0]) == Clauses[0];
  }

  /** The style a clause stands for: the inverse of the table. */
  function StyleOfClause(clause: string): string {
    if clause == Clauses[1] then Styles[1]
    else if clause == Clauses[2] then Styles[2]
    else if clause == Clauses[3] then Styles[3]
    else if clause == Clauses[4] then Styles[4]
    else if clause == Clauses[5] then Styles[5]
    else Styles[0]
  }

  /** The clause determines the style, up to sending every unknown style to the default. */
  lemma ClauseDeterminesStyle(style: string)
    ensures StyleOfClause(StyleClause(style)) == if style in Styles then style else Styles[0]
  {
    // The six clauses are pairwise distinct: the two of equal length differ at position 2,
    // the others differ in length.
    assert |Clauses[0]| == 22 && |Clauses[1]| == 36 && |Clauses[2]| == 72;
    assert |Clauses[3]| == 21 && |Clauses[4]| == 20 && |Clauses[5]| == 21;
    assert Clauses[3][2] != Clauses[5][2];
  }

  datatype OutfitType = Predefined | Custom

  const FallbackOutfit := "appropriate clothing"

  /**
   * The outfit description: the predefined choice verbatim, or the trimmed custom text with
   * "appropriate clothing" standing in when nothing but whitespace was typed. A custom
   * description is never empty and never starts or ends with whitespace.
   */
  function OutfitDescription(outfitType: OutfitType, predefinedOutfit: string, customOutfit: string): (r: string)
    ensures outfitType == Predefined ==> r == predefinedOutfit
    ensures outfitType == Custom ==> r != [] && !IsWhitespace(r[0]) && !IsWhitespace(r[|r| - 1])
    ensures outfitType == Custom && AllWhitespace(customOutfit) ==> r == FallbackOutfit
  {
    if outfitType == Predefined then predefinedOutfit
    else
      var trimmed := Trim(customOutfit);
      if trimmed == "" then FallbackOutfit else trimmed
  }

  /** Custom text with something besides whitespace is used as typed, minus whitespace at both ends. */
  lemma CustomOutfitIsTrimmedText(predefinedOutfit: string, customOutfit: string)
    requires !AllWhitespace(customOutfit)
    ensures exists i, j ::
      TrimBounds(customOutfit, i, j) && i < j &&
      OutfitDescription(Custom, predefinedOutfit, customOutfit) == customOutfit[i..j]
  {
    TrimIsSlice(customOutfit);
    var i, j :| TrimBounds(customOutfit, i, j) && Trim(customOutfit) == customOutfit[i..j];
    assert i < j;
  }

  const AfterStyle := " of the person from the provided photo, in the setting of "
  const AfterEnvironment := ". The person is wearing "
  const AfterOutfit := " and is "
  const Closing := ". Maintain the person's identity and features from the original photo."

  /**
   * The prompt template, with its four holes filled: the fixed text adds the same length to
   * every prompt, which starts with the style description and ends with the closing sentence.
   */
  function Template(styleDescription: string, environment: string, outfitDescription: string, pose: string): (r: string)
    ensures |r| == |styleDescription| + |environment| + |outfitDescription| + |pose| + TemplateTextLength
    ensures r[..|styleDescription|] == styleDescription
    ensures r[|r| - |Closing|..] == Closing
  {
    var r1 := styleDescription + AfterStyle;
    var r := r1 + environment + AfterEnvironment + outfitDescription + AfterOutfit + pose + Closing;
    assert r[..|styleDescription|] == r1[..|styleDescription|];
    r
  }

  /** The length of the template's own text (160 characters). */
  const TemplateTextLength := |AfterStyle| + |AfterEnvironment| + |AfterOutfit| + |Closing|

  /**
   * Every field sits at a fixed place in the filled template: the prompt starts with the
   * style clause, ends with the closing sentence, and each field can be read back once
   * the lengths of the fields before it are known.
   */
  lemma TemplateFields(styleDescription: string, environment: string, outfitDescription: string, pose: string)
    ensures var r := Template(styleDescription, environment, outfitDescription, pose);
      var e := |styleDescription| + |AfterStyle|;
      var o := e + |environment| + |AfterEnvironment|;
      var p := o + |outfitDescription| + |AfterOutfit|;
      |r| == p + |pose| + |Closing| &&
      r[..|styleDescription|] == styleDescription &&
      r[e..e + |environment|] == environment &&
      r[o..o + |outfitDescription|] == outfitDescription &&
      r[p..p + |pose|] == pose &&
      r[p + |pose|..] == Closing
  {
    var r := Template(styleDescription, environment, outfitDescription, pose);
    var e := |styleDescription| + |AfterStyle|;
    var o := e + |environment| + |AfterEnvironment|;
    var p := o + |outfitDescription| + |AfterOutfit|;
    var r1 := styleDescription + AfterStyle;
    var r2 := r1 + environment + AfterEnvironment;
    var r3 := r2 + outfitDescription + AfterOutfit;
    assert r == r3 + pose + Closing;
    assert r[..|styleDescription|] == r1[..|styleDescription|];
    assert r[e..e + |environment|] == (r1 + environment)[e..];
    assert r[o..o + |outfitDescription|] == (r2 + outfitDescription)[o..];
    assert r[p..p + |pose|] == (r3 + pose)[p..];
  }

  /** The template's own text sits between the fields: the three connectors read back verbatim. */
  lemma TemplateConnectors(styleDescription: string, environment: string, outfitDescription: string, pose: string)
    ensures var r := Template(styleDescription, environment, outfitDescription, pose);
      var e := |styleDescription| + |AfterStyle|;
      var o := e + |environment| + |AfterEnvironment|;
      var p := o + |outfitDescription| + |AfterOutfit|;
      r[|styleDescription|..e] == AfterStyle &&
      r[e + |environment|..o] == AfterEnvironment &&
      r[o + |outfitDescription|..p] == AfterOutfit
  {
    var e := |styleDescription| + |AfterStyle|;
    var o := e + |environment| + |AfterEnvironment|;
    var p := o + |outfitDescription| + |AfterOutfit|;
    var r1 := styleDescription + AfterStyle;
    var r2 := r1 + environment + AfterEnvironment;
    var r3 := r2 + outfitDescription + AfterOutfit;
    var r := r3 + pose + Closing;
    assert r[|styleDescription|..e] == r1[|styleDescription|..];
    assert r[e + |environment|..o] == r2[e + |environment|..];
    assert r[o + |outfitDescription|..p] == r3[o + |outfitDescription|..];
  }

  /** Two prompts whose first three fields have the same lengths are equal only if all four fields are. */
  lemma TemplateInjective(s: string, e: string, o: string, p: string, s': string, e': string, o': string, p': string)
    requires |s| == |s'| && |e| == |e'| && |o| == |o'|
    ensures Template(s, e, o, p) == Template(s', e', o', p') <==> s == s' && e == e' && o == o' && p == p'
  {
    TemplateFields(s, e, o, p);
    TemplateFields(s', e', o', p');
  }

  /** What the user has chosen when they press the button. */
  datatype Params = Params(
    environment: string,
    style: string,
    outfitType: OutfitType,
    predefinedOutfit: string,
    customOutfit: string,
    pose: string)

  /**
   * The full prompt for a set of choices: it starts with the chosen style's clause (the
   * photorealistic one for an unknown style) and ends with the closing sentence.
   */
  function FullPrompt(p: Params): (r: string)
    ensures |r| >= |StyleClause(p.style)| + |Closing|
    ensures r[..|StyleClause(p.style)|] == StyleClause(p.style)
    ensures p.style !in Styles ==> r[..|Clauses[0]|] == Clauses[0]
    ensures r[|r| - |Closing|..] == Closing
  {
    Template(StyleClause(p.style), p.environment,
             OutfitDescription(p.outfitType, p.predefinedOutfit, p.customOutfit), p.pose)
  }

  /** A custom outfit of nothing but whitespace puts "appropriate clothing" into the prompt. */
  lemma BlankCustomOutfit(p: Params)
    requires p.outfitType == Custom && AllWhitespace(p.customOutfit)
    ensures FullPrompt(p) == Template(StyleClause(p.style), p.environment, FallbackOutfit, p.pose)
  {
  }

  /**
   * The page's default choices with the anime style give this prompt, character for character
   * (written in pieces at the template's holes).
   */
  lemma AnimeBeachPrompt()
    ensures FullPrompt(Params("a beach", "anime", Predefined, "casual wear", "", "sitting on a chair"))
      == "An anime style image" + " of the person from the provided photo, in the setting of " + "a beach"
         + ". The person is wearing " + "casual wear" + " and is " + "sitting on a chair"
         + ". Maintain the person's identity and features from the original photo."
  {
  }
}
