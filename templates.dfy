/** The three message templates of the content creator: a trading signal, a market
    analysis and an educational note. Each renderer takes the values of its form's
    fields and returns the message text, or the empty string when a required field
    is empty (nothing is partially rendered). */
module Templates {
  import opened Text

  // ----- Form records -------------------------------------------------------------

  /** The signal form. `tp1`, `tp2` and `validUntil` are optional. */
  datatype SignalFields = SignalFields(
    symbol: string, timeframe: string, direction: string, confidence: string,
    entry: string, stopLoss: string, tp1: string, tp2: string,
    analysis: string, risk: string, author: string, validUntil: string)

  /** The market-analysis form; `kind` is the analysis type (Technical, ...). */
  datatype AnalysisFields = AnalysisFields(
    symbol: string, timeframe: string, kind: string, title: string,
    content: string, conclusion: string, author: string)

  /** The education form; `keyPoints` is free text, usually one point per line. */
  datatype EducationFields = EducationFields(
    topic: string, level: string, title: string, content: string,
    keyPoints: string, author: string)

  /** The required fields of each form, in the order the renderer tests them. */
  function SignalRequired(f: SignalFields): seq<string> {
    [f.symbol, f.timeframe, f.direction, f.confidence, f.entry, f.stopLoss, f.analysis, f.risk, f.author]
  }

  function AnalysisRequired(f: AnalysisFields): seq<string> {
    [f.symbol, f.timeframe, f.kind, f.title, f.content, f.conclusion, f.author]
  }

  function EducationRequired(f: EducationFields): seq<string> {
    [f.topic, f.level, f.title, f.content, f.keyPoints, f.author]
  }

  // ----- Fixed text -----------------------------------------------------------------

  /** The horizontal rule: nineteen box-drawing double lines. */
  const Rule := "═══════════════════"

  const SignalTitle := "📊 FOREX SIGNAL"
  const SignalFooter := "⚠️ Educational purposes only. Not financial advice."
  const AnalysisTitle := "📊 MARKET ANALYSIS"
  const AnalysisFooter := "📚 Educational content"
  const EducationTitle := "📚 EDUCATIONAL CONTENT"
  const EducationFooter := "📖 Learning material"

  const Green := "🟢"
  const Amber := "🟡"
  const Red := "🔴"

  const LongText := "🟢 LONG / BUY"
  const ShortText := "🔴 SHORT / SELL"
  const WaitText := "🟡 NEUTRAL / WAIT"

  // ----- Glyphs ---------------------------------------------------------------------

  /** The direction line: BUY and SELL have their own text, every other value waits. */
  function DirectionText(direction: string): (t: string)
    ensures t == LongText <==> direction == "BUY"
    ensures t == ShortText <==> direction == "SELL"
    ensures t == WaitText <==> direction != "BUY" && direction != "SELL"
  {
    if direction == "BUY" then LongText
    else if direction == "SELL" then ShortText
    else WaitText
  }

  /** A traffic-light glyph: green for the `good` value, amber for the `fair` value,
      red for anything else (the confidence, risk and level markers). */
  function Glyph(value: string, good: string, fair: string): (g: string)
    ensures g == Green <==> value == good
    ensures g == Amber <==> value != good && value == fair
    ensures g == Red <==> value != good && value != fair
  {
    if value == good then Green
    else if value == fair then Amber
    else Red
  }

  function ConfidenceGlyph(confidence: string): string { Glyph(confidence, "High", "Medium") }
  function RiskGlyph(risk: string): string { Glyph(risk, "Conservative", "Moderate") }
  function LevelGlyph(level: string): string { Glyph(level, "Beginner", "Intermediate") }

  /** The confidence and risk markers: the best value is green, the middle value amber,
      and any other value, including an unexpected one, red. */
  lemma GlyphTables(v: string)
    ensures ConfidenceGlyph(v) == (if v == "High" then Green else if v == "Medium" then Amber else Red)
    ensures RiskGlyph(v) == (if v == "Conservative" then Green else if v == "Moderate" then Amber else Red)
    ensures ConfidenceGlyph(v) in {Green, Amber, Red} && RiskGlyph(v) in {Green, Amber, Red}
  {
  }

  /** The level marker of an educational note follows the same mapping. */
  lemma LevelGlyphTable(v: string)
    ensures LevelGlyph(v) == (if v == "Beginner" then Green else if v == "Intermediate" then Amber else Red)
    ensures LevelGlyph(v) in {Green, Amber, Red}
  {
  }

  // ----- Renderers ------------------------------------------------------------------

  /** The signal message. `formatDate` stands for the browser's locale-dependent
      rendering of the `validUntil` timestamp. */
  function SignalPreview(f: SignalFields, formatDate: string -> string): (r: string)
    ensures "" in SignalRequired(f) ==> r == ""
    ensures r == "" ==> "" in SignalRequired(f)
  {
    if f.symbol == "" || f.timeframe == "" || f.direction == "" || f.confidence == ""
       || f.entry == "" || f.stopLoss == "" || f.analysis == "" || f.risk == "" || f.author == ""
    then ""
    else
      assert "" !in SignalRequired(f) by {
        assert SignalRequired(f) == [f.symbol, f.timeframe, f.direction, f.confidence, f.entry, f.stopLoss, f.analysis, f.risk, f.author];
      }
      SignalText(f, formatDate)
  }

  /** The signal message itself: header, prices, analysis, signature. */
  function SignalText(f: SignalFields, formatDate: string -> string): (r: string)
    ensures EndsWith(r, SignalFooter)
  {
    var body := SignalHeader(f) + SignalPrices(f) + SignalAnalysis(f, formatDate);
    var closing := Closing(f.author, SignalFooter);
    EndsWithPrepend(body, closing, SignalFooter);
    body + closing
  }

  /** The market-analysis message. */
  function AnalysisPreview(f: AnalysisFields): (r: string)
    ensures "" in AnalysisRequired(f) ==> r == ""
    ensures r == "" ==> "" in AnalysisRequired(f)
  {
    if f.symbol == "" || f.timeframe == "" || f.kind == "" || f.title == ""
       || f.content == "" || f.conclusion == "" || f.author == ""
    then ""
    else
      assert "" !in AnalysisRequired(f) by {
        assert AnalysisRequired(f) == [f.symbol, f.timeframe, f.kind, f.title, f.content, f.conclusion, f.author];
      }
      AnalysisText(f)
  }

  /** The analysis message itself: banner, heading, body and conclusion, signature. */
  function AnalysisText(f: AnalysisFields): (r: string)
    ensures EndsWith(r, AnalysisFooter)
  {
    var body := Banner(AnalysisTitle) + AnalysisHeading(f) + Discussion(f.content, "🔍 CONCLUSION:", f.conclusion);
    var closing := Closing(f.author, AnalysisFooter);
    EndsWithPrepend(body, closing, AnalysisFooter);
    body + closing
  }

  /** The educational message. */
  function EducationPreview(f: EducationFields): (r: string)
    ensures "" in EducationRequired(f) ==> r == ""
    ensures r == "" ==> "" in EducationRequired(f)
  {
    if f.topic == "" || f.level == "" || f.title == "" || f.content == ""
       || f.keyPoints == "" || f.author == ""
    then ""
    else
      assert "" !in EducationRequired(f) by {
        assert EducationRequired(f) == [f.topic, f.level, f.title, f.content, f.keyPoints, f.author];
      }
      EducationText(f)
  }

  /** The education message itself: banner, heading, body and key points, signature. */
  function EducationText(f: EducationFields): (r: string)
    ensures EndsWith(r, EducationFooter)
  {
    var body := Banner(EducationTitle) + EducationHeading(f) + Discussion(f.content, "🔑 KEY POINTS:", f.keyPoints);
    var closing := Closing(f.author, EducationFooter);
    EndsWithPrepend(body, closing, EducationFooter);
    body + closing
  }

  // ----- Sections of the messages, in the order the renderers append them ---------------

  /** The title line, then the rule and a blank line. */
  function Banner(title: string): string {
    (title + "\n") + (Rule + "\n\n")
  }

  /** The author line, the rule, and the closing line without a line break. */
  function Closing(author: string, footer: string): (r: string)
    ensures EndsWith(r, footer)
  {
    ("👤 " + author + "\n") + (Rule + "\n") + footer
  }

  /** The signal's banner and its summary. */
  function SignalHeader(f: SignalFields): string {
    Banner(SignalTitle) + SignalSummary(f)
  }

  /** Pair and timeframe, direction, confidence and risk, then a blank line. */
  function SignalSummary(f: SignalFields): string {
    ("🎯 " + f.symbol + " (" + f.timeframe + ")" + "\n")
    + (DirectionText(f.direction) + "\n")
    + (ConfidenceGlyph(f.confidence) + " " + f.confidence + " Confidence" + "\n")
    + (RiskGlyph(f.risk) + " " + f.risk + " Risk" + "\n\n")
  }

  /** The price block: the fixed entry and stop-loss lines, then the take profits that are set. */
  function SignalPrices(f: SignalFields): string {
    PriceBase(f.entry, f.stopLoss) + TakeProfit1Text(f.tp1) + TakeProfit2Text(f.tp2)
  }

  function PriceBase(entry: string, stopLoss: string): string {
    ("📈 ENTRY & EXIT:" + "\n") + ("Entry: " + entry + "\n") + ("Stop Loss: " + stopLoss + "\n")
  }

  function TakeProfit1Text(tp1: string): string {
    if tp1 != "" then "Take Profit 1: " + tp1 + "\n" else ""
  }

  /** The second take profit brings its own blank line. */
  function TakeProfit2Text(tp2: string): string {
    if tp2 != "" then "Take Profit 2: " + tp2 + "\n\n" else ""
  }

  /** The analysis paragraph, then the validity line when a date is set. */
  function SignalAnalysis(f: SignalFields, formatDate: string -> string): string {
    MarketAnalysis(f.analysis) + ValidityText(f.validUntil, formatDate)
  }

  function MarketAnalysis(analysis: string): string {
    ("📋 MARKET ANALYSIS:" + "\n") + (analysis + "\n\n")
  }

  function ValidityText(validUntil: string, formatDate: string -> string): string {
    if validUntil != "" then "⏰ Valid until: " + formatDate(validUntil) + "\n\n" else ""
  }

  /** Pair and timeframe, analysis type, title, then the rule. */
  function AnalysisHeading(f: AnalysisFields): string {
    ("🎯 " + f.symbol + " (" + f.timeframe + ")" + "\n")
    + ("📋 " + f.kind + "\n\n")
    + ("📝 " + f.title + "\n")
    + (Rule + "\n\n")
  }

  /** Topic, level, title, then the rule. */
  function EducationHeading(f: EducationFields): string {
    ("🎓 " + f.topic + "\n")
    + (LevelGlyph(f.level) + " " + f.level + " Level" + "\n\n")
    + ("📝 " + f.title + "\n")
    + (Rule + "\n\n")
  }

  /** The body paragraph, a section heading, and the paragraph under it. */
  function Discussion(content: string, heading: string, detail: string): string {
    (content + "\n\n") + (heading + "\n") + (detail + "\n\n")
  }

  // ----- Layouts: each message line by line -------------------------------------------

  /** The lines of a signal message, top to bottom; an optional line, and the blank line
      that follows the second take-profit and the validity lines, is present only when
      its field is set. */
  function SignalLines(f: SignalFields, formatDate: string -> string): seq<string> {
    (BannerLines(SignalTitle) + SignalSummaryLines(f))
    + (PriceBaseLines(f.entry, f.stopLoss) + TakeProfit1Lines(f.tp1) + TakeProfit2Lines(f.tp2))
    + (MarketAnalysisLines(f.analysis) + ValidityLines(f.validUntil, formatDate))
    + ClosingLines(f.author, SignalFooter)
  }

  function AnalysisLines(f: AnalysisFields): seq<string> {
    BannerLines(AnalysisTitle) + AnalysisHeadingLines(f)
    + DiscussionLines(f.content, "🔍 CONCLUSION:", f.conclusion)
    + ClosingLines(f.author, AnalysisFooter)
  }

  function EducationLines(f: EducationFields): seq<string> {
    BannerLines(EducationTitle) + EducationHeadingLines(f)
    + DiscussionLines(f.content, "🔑 KEY POINTS:", f.keyPoints)
    + ClosingLines(f.author, EducationFooter)
  }

  function BannerLines(title: string): seq<string> {
    [title, Rule, ""]
  }

  function ClosingLines(author: string, footer: string): seq<string> {
    ["👤 " + author, Rule, footer]
  }

  function SignalSummaryLines(f: SignalFields): seq<string> {
    ["🎯 " + f.symbol + " (" + f.timeframe + ")",
     DirectionText(f.direction),
     ConfidenceGlyph(f.confidence) + " " + f.confidence + " Confidence",
     RiskGlyph(f.risk) + " " + f.risk + " Risk",
     ""]
  }

  function PriceBaseLines(entry: string, stopLoss: string): seq<string> {
    ["📈 ENTRY & EXIT:", "Entry: " + entry, "Stop Loss: " + stopLoss]
  }

  function TakeProfit1Lines(tp1: string): seq<string> {
    if tp1 != "" then ["Take Profit 1: " + tp1] else []
  }

  function TakeProfit2Lines(tp2: string): seq<string> {
    if tp2 != "" then ["Take Profit 2: " + tp2, ""] else []
  }

  function MarketAnalysisLines(analysis: string): seq<string> {
    ["📋 MARKET ANALYSIS:", analysis, ""]
  }

  function ValidityLines(validUntil: string, formatDate: string -> string): seq<string> {
    if validUntil != "" then ["⏰ Valid until: " + formatDate(validUntil), ""] else []
  }

  function AnalysisHeadingLines(f: AnalysisFields): seq<string> {
    ["🎯 " + f.symbol + " (" + f.timeframe + ")", "📋 " + f.kind, "", "📝 " + f.title, Rule, ""]
  }

  function EducationHeadingLines(f: EducationFields): seq<string> {
    ["🎓 " + f.topic, LevelGlyph(f.level) + " " + f.level + " Level", "", "📝 " + f.title, Rule, ""]
  }

  function DiscussionLines(content: string, heading: string, detail: string): seq<string> {
    [content, "", heading, detail, ""]
  }

  /** True when every line of `ls` is a single display line. */
  predicate AllSingle(ls: seq<string>) {
    forall i :: 0 <= i < |ls| ==> SingleLine(ls[i])
  }

  // ----- Each section is its lines, each followed by a line break ----------------------

  lemma BannerText(title: string)
    ensures Terminated(BannerLines(title)) == Banner(title)
  {
    TerminatedLinePara(title, Rule);
  }

  lemma ClosingText(author: string, footer: string)
    ensures Join(ClosingLines(author, footer)) == Closing(author, footer)
  {
    var ls := ClosingLines(author, footer);
    JoinLast(ls);
    assert ls[..2] == ["👤 " + author, Rule];
    assert Terminated(ls[..2]) == ("👤 " + author + "\n") + (Rule + "\n") by {
      TerminatedStep(ls[..2], 0);
      TerminatedStep(ls[..2], 1);
      assert ls[..2][..0] == [] && ls[..2][..2] == ls[..2];
    }
  }

  lemma SignalSummaryText(f: SignalFields)
    ensures Terminated(SignalSummaryLines(f)) == SignalSummary(f)
  {
    TerminatedLines3Para("🎯 " + f.symbol + " (" + f.timeframe + ")", DirectionText(f.direction),
                         ConfidenceGlyph(f.confidence) + " " + f.confidence + " Confidence",
                         RiskGlyph(f.risk) + " " + f.risk + " Risk");
  }

  lemma PriceBaseText(entry: string, stopLoss: string)
    ensures Terminated(PriceBaseLines(entry, stopLoss)) == PriceBase(entry, stopLoss)
  {
    TerminatedLines3("📈 ENTRY & EXIT:", "Entry: " + entry, "Stop Loss: " + stopLoss);
  }

  lemma OptionalText(f: SignalFields, formatDate: string -> string)
    ensures Terminated(TakeProfit1Lines(f.tp1)) == TakeProfit1Text(f.tp1)
    ensures Terminated(TakeProfit2Lines(f.tp2)) == TakeProfit2Text(f.tp2)
    ensures Terminated(ValidityLines(f.validUntil, formatDate)) == ValidityText(f.validUntil, formatDate)
  {
    if f.tp2 != "" {
      TerminatedBlank("Take Profit 2: " + f.tp2);
    }
    if f.validUntil != "" {
      TerminatedBlank("⏰ Valid until: " + formatDate(f.validUntil));
    }
  }

  lemma MarketAnalysisText(analysis: string)
    ensures Terminated(MarketAnalysisLines(analysis)) == MarketAnalysis(analysis)
  {
    TerminatedLinePara("📋 MARKET ANALYSIS:", analysis);
  }

  lemma AnalysisHeadingText(f: AnalysisFields)
    ensures Terminated(AnalysisHeadingLines(f)) == AnalysisHeading(f)
  {
    var first, second := ["🎯 " + f.symbol + " (" + f.timeframe + ")", "📋 " + f.kind, ""], ["📝 " + f.title, Rule, ""];
    assert AnalysisHeadingLines(f) == first + second;
    TerminatedAppend(first, second);
    TerminatedLinePara("🎯 " + f.symbol + " (" + f.timeframe + ")", "📋 " + f.kind);
    TerminatedLinePara("📝 " + f.title, Rule);
    AppendAssoc(Terminated(first), "📝 " + f.title + "\n", Rule + "\n\n");
  }

  lemma EducationHeadingText(f: EducationFields)
    ensures Terminated(EducationHeadingLines(f)) == EducationHeading(f)
  {
    var first, second := ["🎓 " + f.topic, LevelGlyph(f.level) + " " + f.level + " Level", ""], ["📝 " + f.title, Rule, ""];
    assert EducationHeadingLines(f) == first + second;
    TerminatedAppend(first, second);
    TerminatedLinePara("🎓 " + f.topic, LevelGlyph(f.level) + " " + f.level + " Level");
    TerminatedLinePara("📝 " + f.title, Rule);
    AppendAssoc(Terminated(first), "📝 " + f.title + "\n", Rule + "\n\n");
  }

  lemma DiscussionText(content: string, heading: string, detail: string)
    ensures Terminated(DiscussionLines(content, heading, detail)) == Discussion(content, heading, detail)
  {
    TerminatedParaLinePara(content, heading, detail);
  }

  // ----- Layout lemmas ----------------------------------------------------------------

  /** Four runs of lines, the last one closing, joined section by section. */
  lemma JoinSections(a: seq<string>, b: seq<string>, c: seq<string>, d: seq<string>)
    requires d != []
    ensures Join(a + b + c + d) == Terminated(a) + Terminated(b) + Terminated(c) + Join(d)
  {
    JoinAfter(a + b + c, d);
    TerminatedAppend(a + b, c);
    TerminatedAppend(a, b);
  }

  /** The signal text is its line list joined by line breaks. */
  lemma SignalTextLines(f: SignalFields, formatDate: string -> string)
    ensures SignalText(f, formatDate) == Join(SignalLines(f, formatDate))
  {
    var header := BannerLines(SignalTitle) + SignalSummaryLines(f);
    var base := PriceBaseLines(f.entry, f.stopLoss);
    var prices := base + TakeProfit1Lines(f.tp1) + TakeProfit2Lines(f.tp2);
    var analysis := MarketAnalysisLines(f.analysis) + ValidityLines(f.validUntil, formatDate);
    JoinSections(header, prices, analysis, ClosingLines(f.author, SignalFooter));
    TerminatedAppend(BannerLines(SignalTitle), SignalSummaryLines(f));
    TerminatedAppend(base + TakeProfit1Lines(f.tp1), TakeProfit2Lines(f.tp2));
    TerminatedAppend(base, TakeProfit1Lines(f.tp1));
    TerminatedAppend(MarketAnalysisLines(f.analysis), ValidityLines(f.validUntil, formatDate));
    BannerText(SignalTitle);
    SignalSummaryText(f);
    PriceBaseText(f.entry, f.stopLoss);
    OptionalText(f, formatDate);
    MarketAnalysisText(f.analysis);
    ClosingText(f.author, SignalFooter);
  }

  /** The analysis text is its line list joined by line breaks. */
  lemma AnalysisTextLines(f: AnalysisFields)
    ensures AnalysisText(f) == Join(AnalysisLines(f))
  {
    JoinSections(BannerLines(AnalysisTitle), AnalysisHeadingLines(f),
                 DiscussionLines(f.content, "🔍 CONCLUSION:", f.conclusion), ClosingLines(f.author, AnalysisFooter));
    BannerText(AnalysisTitle);
    AnalysisHeadingText(f);
    DiscussionText(f.content, "🔍 CONCLUSION:", f.conclusion);
    ClosingText(f.author, AnalysisFooter);
  }

  /** The education text is its line list joined by line breaks. */
  lemma EducationTextLines(f: EducationFields)
    ensures EducationText(f) == Join(EducationLines(f))
  {
    JoinSections(BannerLines(EducationTitle), EducationHeadingLines(f),
                 DiscussionLines(f.content, "🔑 KEY POINTS:", f.keyPoints), ClosingLines(f.author, EducationFooter));
    BannerText(EducationTitle);
    EducationHeadingText(f);
    DiscussionText(f.content, "🔑 KEY POINTS:", f.keyPoints);
    ClosingText(f.author, EducationFooter);
  }

  /** A message that starts with a banner starts with its title line. */
  lemma BannerStarts(title: string, rest: string)
    ensures StartsWith(Banner(title) + rest, title + "\n")
  {
    StartsWithAppend(Banner(title), title + "\n", rest);
  }

  /** A rendered signal is its lines joined by line breaks: the fixed lines in fixed
      order, each field value verbatim, the optional lines only where their field is
      set; it opens with the title line and closes with the disclaimer, and when no
      value spans several lines its lines are exactly these. */
  lemma SignalLayout(f: SignalFields, formatDate: string -> string)
    requires "" !in SignalRequired(f)
    ensures var r, ls := SignalPreview(f, formatDate), SignalLines(f, formatDate);
      r == Join(ls) && StartsWith(r, SignalTitle + "\n") && EndsWith(r, SignalFooter) &&
      (AllSingle(ls) ==> Lines(r) == ls)
  {
    var ls := SignalLines(f, formatDate);
    SignalTextLines(f, formatDate);
    BannerStarts(SignalTitle, SignalSummary(f));
    StartsWithAppend(SignalHeader(f), SignalTitle + "\n",
                     SignalPrices(f) + SignalAnalysis(f, formatDate) + Closing(f.author, SignalFooter));
    if AllSingle(ls) {
      LinesOfJoin(ls);
    }
  }

  /** A rendered analysis is its lines joined by line breaks: the fixed lines in fixed
      order, the field values verbatim; it opens with the title line and closes with the
      footer, and when no value spans several lines its lines are exactly these. */
  lemma AnalysisLayout(f: AnalysisFields)
    requires "" !in AnalysisRequired(f)
    ensures var r, ls := AnalysisPreview(f), AnalysisLines(f);
      r == Join(ls) && StartsWith(r, AnalysisTitle + "\n") && EndsWith(r, AnalysisFooter) &&
      (AllSingle(ls) ==> Lines(r) == ls)
  {
    var ls := AnalysisLines(f);
    AnalysisTextLines(f);
    BannerStarts(AnalysisTitle, AnalysisHeading(f) + Discussion(f.content, "🔍 CONCLUSION:", f.conclusion)
                                + Closing(f.author, AnalysisFooter));
    if AllSingle(ls) {
      LinesOfJoin(ls);
    }
  }

  /** A rendered educational note is its lines joined by line breaks, as for an analysis;
      the key points are inserted verbatim as one block, so a multi-line list stays a
      list of lines in the message. */
  lemma EducationLayout(f: EducationFields)
    requires "" !in EducationRequired(f)
    ensures var r, ls := EducationPreview(f), EducationLines(f);
      r == Join(ls) && StartsWith(r, EducationTitle + "\n") && EndsWith(r, EducationFooter) &&
      (AllSingle(ls) ==> Lines(r) == ls)
  {
    var ls := EducationLines(f);
    EducationTextLines(f);
    BannerStarts(EducationTitle, EducationHeading(f) + Discussion(f.content, "🔑 KEY POINTS:", f.keyPoints)
                                 + Closing(f.author, EducationFooter));
    if AllSingle(ls) {
      LinesOfJoin(ls);
    }
  }

  // ----- Optional signal lines ---------------------------------------------------------

  /** A signal with all required fields set renders as its message. */
  lemma SignalRendered(f: SignalFields, formatDate: string -> string)
    requires "" !in SignalRequired(f)
    ensures SignalPreview(f, formatDate) ==
      SignalHeader(f)
      + (PriceBase(f.entry, f.stopLoss) + TakeProfit1Text(f.tp1) + TakeProfit2Text(f.tp2))
      + (MarketAnalysis(f.analysis) + ValidityText(f.validUntil, formatDate))
      + Closing(f.author, SignalFooter)
  {
  }

  /** The first take-profit line: clearing `tp1` never changes whether a signal renders;
      with `tp1` empty the stop-loss line is followed directly by the second take profit
      or the market-analysis heading, and with `tp1` set the message is the
      message without it plus exactly `Take Profit 1: {tp1}` and a line break, placed
      right after the stop-loss line. */
  lemma TakeProfit1Line(f: SignalFields, formatDate: string -> string)
    ensures var r, w := SignalPreview(f, formatDate), SignalPreview(f.(tp1 := ""), formatDate);
      (r == "" <==> w == "") &&
      (r != "" && f.tp1 == "" ==>
        (exists k :: 0 <= k <= |r| &&
           EndsWith(r[..k], "Stop Loss: " + f.stopLoss + "\n") &&
           StartsWith(r[k..], (if f.tp2 != "" then "Take Profit 2: " + f.tp2 else "📋 MARKET ANALYSIS:") + "\n"))) &&
      (r != "" && f.tp1 != "" ==>
        (exists k :: 0 <= k <= |w| &&
           EndsWith(w[..k], "Stop Loss: " + f.stopLoss + "\n") &&
           r == w[..k] + ("Take Profit 1: " + f.tp1 + "\n") + w[k..]))
  {
    var g := f.(tp1 := "");
    assert SignalRequired(g) == SignalRequired(f);
    if "" !in SignalRequired(f) && f.tp1 != "" {
      TakeProfit1Insert(f, formatDate);
    } else if "" !in SignalRequired(f) {
      TakeProfit1Absent(f, formatDate);
    }
  }

  /** The placement half of TakeProfit1Line: where the optional text is inserted. */
  lemma TakeProfit1Insert(f: SignalFields, formatDate: string -> string)
    requires "" !in SignalRequired(f) && f.tp1 != ""
    ensures var r, w := SignalPreview(f, formatDate), SignalPreview(f.(tp1 := ""), formatDate);
      (exists k :: 0 <= k <= |w| &&
         EndsWith(w[..k], "Stop Loss: " + f.stopLoss + "\n") &&
         r == w[..k] + ("Take Profit 1: " + f.tp1 + "\n") + w[k..])
  {
    var g := f.(tp1 := "");
    var r, w := SignalPreview(f, formatDate), SignalPreview(g, formatDate);
    var header, base := SignalHeader(f), PriceBase(f.entry, f.stopLoss);
    var tp1, tp2 := TakeProfit1Text(f.tp1), TakeProfit2Text(f.tp2);
    var analysis, closing := SignalAnalysis(f, formatDate), Closing(f.author, SignalFooter);
    assert r == (header + base) + tp1 + (tp2 + analysis + closing) && w == (header + base) + (tp2 + analysis + closing) by {
      SignalRendered(f, formatDate);
      SignalRendered(g, formatDate);
      assert SignalHeader(g) == header;
      RegroupSecond(header, base, tp1, tp2, analysis, closing);
    }
    SpliceAt(header + base, tp1, tp2 + analysis + closing);
    var k := |header + base|;
    assert EndsWith(w[..k], "Stop Loss: " + f.stopLoss + "\n") by {
      ConcatEnds(("📈 ENTRY & EXIT:" + "\n") + ("Entry: " + f.entry + "\n"), "Stop Loss: " + f.stopLoss + "\n");
      EndsWithPrepend(header, base, "Stop Loss: " + f.stopLoss + "\n");
    }
    assert r == w[..k] + ("Take Profit 1: " + f.tp1 + "\n") + w[k..];
  }

  /** The absence half of TakeProfit1Line: without `tp1`, nothing sits between the
      stop-loss line and what follows the price block. */
  lemma TakeProfit1Absent(f: SignalFields, formatDate: string -> string)
    requires "" !in SignalRequired(f) && f.tp1 == ""
    ensures var r := SignalPreview(f, formatDate);
      exists k :: 0 <= k <= |r| &&
        EndsWith(r[..k], "Stop Loss: " + f.stopLoss + "\n") &&
        StartsWith(r[k..], (if f.tp2 != "" then "Take Profit 2: " + f.tp2 else "📋 MARKET ANALYSIS:") + "\n")
  {
    var r := SignalPreview(f, formatDate);
    var header, base := SignalHeader(f), PriceBase(f.entry, f.stopLoss);
    var tp1, tp2 := TakeProfit1Text(f.tp1), TakeProfit2Text(f.tp2);
    var analysis, closing := SignalAnalysis(f, formatDate), Closing(f.author, SignalFooter);
    assert r == (header + base) + (tp2 + analysis + closing) by {
      SignalRendered(f, formatDate);
      assert tp1 == "";
      RegroupSecond(header, base, tp1, tp2, analysis, closing);
    }
    SpliceAt(header + base, "", tp2 + analysis + closing);
    var k := |header + base|;
    assert EndsWith(r[..k], "Stop Loss: " + f.stopLoss + "\n") by {
      ConcatEnds(("📈 ENTRY & EXIT:" + "\n") + ("Entry: " + f.entry + "\n"), "Stop Loss: " + f.stopLoss + "\n");
      EndsWithPrepend(header, base, "Stop Loss: " + f.stopLoss + "\n");
    }
    AfterStopLoss(f, formatDate);
  }

  /** What follows the stop-loss line when there is no first take profit: the second
      take-profit line if set, else the market-analysis heading. */
  lemma AfterStopLoss(f: SignalFields, formatDate: string -> string)
    ensures var tail := TakeProfit2Text(f.tp2) + SignalAnalysis(f, formatDate) + Closing(f.author, SignalFooter);
      StartsWith(tail, (if f.tp2 != "" then "Take Profit 2: " + f.tp2 else "📋 MARKET ANALYSIS:") + "\n")
  {
    var tp2, analysis, closing := TakeProfit2Text(f.tp2), SignalAnalysis(f, formatDate), Closing(f.author, SignalFooter);
    var next := (if f.tp2 != "" then "Take Profit 2: " + f.tp2 else "📋 MARKET ANALYSIS:") + "\n";
    if f.tp2 != "" {
      BlankLineStarts("Take Profit 2: " + f.tp2);
      StartsWithAppend(tp2, next, analysis);
      StartsWithAppend(tp2 + analysis, next, closing);
    } else {
      assert tp2 + analysis + closing == analysis + closing;
      ConcatEnds(next, f.analysis + "\n\n");
      StartsWithAppend(MarketAnalysis(f.analysis), next, ValidityText(f.validUntil, formatDate));
      StartsWithAppend(analysis, next, closing);
    }
  }

  /** The second take-profit line: clearing `tp2` never changes whether a signal renders;
      with `tp2` empty the last price line is followed directly by the market-analysis
      heading, with no blank line between; with `tp2` set the message is the message without it plus exactly
      `Take Profit 2: {tp2}` and a blank line, placed after the last price line and right
      before the market-analysis heading. So that heading is preceded by a blank line
      only when `tp2` is set. */
  lemma TakeProfit2Line(f: SignalFields, formatDate: string -> string)
    ensures var r, w := SignalPreview(f, formatDate), SignalPreview(f.(tp2 := ""), formatDate);
      (r == "" <==> w == "") &&
      (r != "" && f.tp2 == "" ==>
        (exists k :: 0 <= k <= |r| &&
           EndsWith(r[..k], (if f.tp1 != "" then "Take Profit 1: " + f.tp1 else "Stop Loss: " + f.stopLoss) + "\n") &&
           StartsWith(r[k..], "📋 MARKET ANALYSIS:" + "\n"))) &&
      (r != "" && f.tp2 != "" ==>
        (exists k :: 0 <= k <= |w| &&
           EndsWith(w[..k], (if f.tp1 != "" then "Take Profit 1: " + f.tp1 else "Stop Loss: " + f.stopLoss) + "\n") &&
           StartsWith(w[k..], "📋 MARKET ANALYSIS:" + "\n") &&
           r == w[..k] + ("Take Profit 2: " + f.tp2 + "\n\n") + w[k..]))
  {
    var g := f.(tp2 := "");
    assert SignalRequired(g) == SignalRequired(f);
    if "" !in SignalRequired(f) && f.tp2 != "" {
      TakeProfit2Insert(f, formatDate);
    } else if "" !in SignalRequired(f) {
      TakeProfit2Absent(f, formatDate);
    }
  }

  /** The placement half of TakeProfit2Line: where the optional text is inserted. */
  lemma TakeProfit2Insert(f: SignalFields, formatDate: string -> string)
    requires "" !in SignalRequired(f) && f.tp2 != ""
    ensures var r, w := SignalPreview(f, formatDate), SignalPreview(f.(tp2 := ""), formatDate);
      (exists k :: 0 <= k <= |w| &&
         EndsWith(w[..k], (if f.tp1 != "" then "Take Profit 1: " + f.tp1 else "Stop Loss: " + f.stopLoss) + "\n") &&
         StartsWith(w[k..], "📋 MARKET ANALYSIS:" + "\n") &&
         r == w[..k] + ("Take Profit 2: " + f.tp2 + "\n\n") + w[k..])
  {
    var g := f.(tp2 := "");
    var r, w := SignalPreview(f, formatDate), SignalPreview(g, formatDate);
    var header, base := SignalHeader(f), PriceBase(f.entry, f.stopLoss);
    var tp1, tp2 := TakeProfit1Text(f.tp1), TakeProfit2Text(f.tp2);
    var analysis, closing := SignalAnalysis(f, formatDate), Closing(f.author, SignalFooter);
    var prices := header + base + tp1;
    assert r == prices + tp2 + (analysis + closing) && w == prices + (analysis + closing) by {
      SignalRendered(f, formatDate);
      SignalRendered(g, formatDate);
      assert SignalHeader(g) == header;
      RegroupThird(header, base, tp1, tp2, analysis, closing);
    }
    SpliceAt(prices, tp2, analysis + closing);
    var k := |prices|;
    var last := if f.tp1 != "" then "Take Profit 1: " + f.tp1 else "Stop Loss: " + f.stopLoss;
    assert EndsWith(w[..k], last + "\n") by {
      if f.tp1 != "" {
        ConcatEnds(header + base, tp1);
      } else {
        ConcatEnds(("📈 ENTRY & EXIT:" + "\n") + ("Entry: " + f.entry + "\n"), "Stop Loss: " + f.stopLoss + "\n");
        EndsWithPrepend(header, base, "Stop Loss: " + f.stopLoss + "\n");
        assert prices == header + base;
      }
    }
    assert StartsWith(w[k..], "📋 MARKET ANALYSIS:" + "\n") by {
      var heading := "📋 MARKET ANALYSIS:" + "\n";
      ConcatEnds(heading, f.analysis + "\n\n");
      StartsWithAppend(MarketAnalysis(f.analysis), heading, ValidityText(f.validUntil, formatDate));
      StartsWithAppend(analysis, heading, closing);
    }
    assert r == w[..k] + ("Take Profit 2: " + f.tp2 + "\n\n") + w[k..];
  }

  /** The absence half of TakeProfit2Line: without `tp2`, the market-analysis heading
      follows the last price line with no blank line between. */
  lemma TakeProfit2Absent(f: SignalFields, formatDate: string -> string)
    requires "" !in SignalRequired(f) && f.tp2 == ""
    ensures var r := SignalPreview(f, formatDate);
      exists k :: 0 <= k <= |r| &&
        EndsWith(r[..k], (if f.tp1 != "" then "Take Profit 1: " + f.tp1 else "Stop Loss: " + f.stopLoss) + "\n") &&
        StartsWith(r[k..], "📋 MARKET ANALYSIS:" + "\n")
  {
    var r := SignalPreview(f, formatDate);
    var header, base := SignalHeader(f), PriceBase(f.entry, f.stopLoss);
    var tp1, tp2 := TakeProfit1Text(f.tp1), TakeProfit2Text(f.tp2);
    var analysis, closing := SignalAnalysis(f, formatDate), Closing(f.author, SignalFooter);
    var prices := header + base + tp1;
    assert r == prices + (analysis + closing) by {
      SignalRendered(f, formatDate);
      assert tp2 == "";
      RegroupThird(header, base, tp1, tp2, analysis, closing);
    }
    SpliceAt(prices, "", analysis + closing);
    var k := |prices|;
    var last := if f.tp1 != "" then "Take Profit 1: " + f.tp1 else "Stop Loss: " + f.stopLoss;
    assert EndsWith(r[..k], last + "\n") by {
      if f.tp1 != "" {
        ConcatEnds(header + base, tp1);
      } else {
        ConcatEnds(("📈 ENTRY & EXIT:" + "\n") + ("Entry: " + f.entry + "\n"), "Stop Loss: " + f.stopLoss + "\n");
        EndsWithPrepend(header, base, "Stop Loss: " + f.stopLoss + "\n");
        assert prices == header + base;
      }
    }
    assert StartsWith(r[k..], "📋 MARKET ANALYSIS:" + "\n") by {
      var heading := "📋 MARKET ANALYSIS:" + "\n";
      ConcatEnds(heading, f.analysis + "\n\n");
      StartsWithAppend(MarketAnalysis(f.analysis), heading, ValidityText(f.validUntil, formatDate));
      StartsWithAppend(analysis, heading, closing);
    }
  }

  /** The validity line: clearing `validUntil` never changes whether a signal renders;
      with it empty the analysis paragraph is followed directly by the author line; with
      it set the message is the message without it plus exactly
      `⏰ Valid until: {formatted date}` and a blank line, placed after the analysis
      paragraph and right before the author line. */
  lemma ValidUntilLine(f: SignalFields, formatDate: string -> string)
    ensures var r, w := SignalPreview(f, formatDate), SignalPreview(f.(validUntil := ""), formatDate);
      (r == "" <==> w == "") &&
      (r != "" && f.validUntil == "" ==>
        (exists k :: 0 <= k <= |r| &&
           EndsWith(r[..k], f.analysis + "\n\n") &&
           StartsWith(r[k..], "👤 " + f.author + "\n"))) &&
      (r != "" && f.validUntil != "" ==>
        (exists k :: 0 <= k <= |w| &&
           EndsWith(w[..k], f.analysis + "\n\n") &&
           StartsWith(w[k..], "👤 " + f.author + "\n") &&
           r == w[..k] + ("⏰ Valid until: " + formatDate(f.validUntil) + "\n\n") + w[k..]))
  {
    var g := f.(validUntil := "");
    assert SignalRequired(g) == SignalRequired(f);
    if "" !in SignalRequired(f) && f.validUntil != "" {
      ValidUntilInsert(f, formatDate);
    } else if "" !in SignalRequired(f) {
      ValidUntilAbsent(f, formatDate);
    }
  }

  /** The placement half of ValidUntilLine: where the optional text is inserted. */
  lemma ValidUntilInsert(f: SignalFields, formatDate: string -> string)
    requires "" !in SignalRequired(f) && f.validUntil != ""
    ensures var r, w := SignalPreview(f, formatDate), SignalPreview(f.(validUntil := ""), formatDate);
      (exists k :: 0 <= k <= |w| &&
         EndsWith(w[..k], f.analysis + "\n\n") &&
         StartsWith(w[k..], "👤 " + f.author + "\n") &&
         r == w[..k] + ("⏰ Valid until: " + formatDate(f.validUntil) + "\n\n") + w[k..])
  {
    var g := f.(validUntil := "");
    var r, w := SignalPreview(f, formatDate), SignalPreview(g, formatDate);
    var header, prices := SignalHeader(f), SignalPrices(f);
    var market, valid := MarketAnalysis(f.analysis), ValidityText(f.validUntil, formatDate);
    var closing := Closing(f.author, SignalFooter);
    var upto := header + prices + market;
    assert r == upto + valid + closing && w == upto + closing by {
      SignalRendered(f, formatDate);
      SignalRendered(g, formatDate);
      assert SignalHeader(g) == header;
      RegroupLast(header, prices, market, valid, closing);
    }
    SpliceAt(upto, valid, closing);
    var k := |upto|;
    assert EndsWith(w[..k], f.analysis + "\n\n") by {
      ConcatEnds("📋 MARKET ANALYSIS:" + "\n", f.analysis + "\n\n");
      EndsWithPrepend(header + prices, market, f.analysis + "\n\n");
    }
    assert StartsWith(w[k..], "👤 " + f.author + "\n") by {
      var line := "👤 " + f.author + "\n";
      ConcatEnds(line, Rule + "\n");
      StartsWithAppend(line + (Rule + "\n"), line, SignalFooter);
    }
    assert r == w[..k] + ("⏰ Valid until: " + formatDate(f.validUntil) + "\n\n") + w[k..];
  }

  /** The absence half of ValidUntilLine: without an expiry, the author line follows the
      analysis paragraph directly. */
  lemma ValidUntilAbsent(f: SignalFields, formatDate: string -> string)
    requires "" !in SignalRequired(f) && f.validUntil == ""
    ensures var r := SignalPreview(f, formatDate);
      exists k :: 0 <= k <= |r| &&
        EndsWith(r[..k], f.analysis + "\n\n") &&
        StartsWith(r[k..], "👤 " + f.author + "\n")
  {
    var r := SignalPreview(f, formatDate);
    var header, prices := SignalHeader(f), SignalPrices(f);
    var market, valid := MarketAnalysis(f.analysis), ValidityText(f.validUntil, formatDate);
    var closing := Closing(f.author, SignalFooter);
    var upto := header + prices + market;
    assert r == upto + closing by {
      SignalRendered(f, formatDate);
      assert valid == "";
      RegroupLast(header, prices, market, valid, closing);
    }
    SpliceAt(upto, "", closing);
    var k := |upto|;
    assert EndsWith(r[..k], f.analysis + "\n\n") by {
      ConcatEnds("📋 MARKET ANALYSIS:" + "\n", f.analysis + "\n\n");
      EndsWithPrepend(header + prices, market, f.analysis + "\n\n");
    }
    assert StartsWith(r[k..], "👤 " + f.author + "\n") by {
      var line := "👤 " + f.author + "\n";
      ConcatEnds(line, Rule + "\n");
      StartsWithAppend(line + (Rule + "\n"), line, SignalFooter);
    }
  }
}
