/** The content creator's session: which of the three forms is active, what the preview
    pane shows, and whether a message goes out. Form values are passed in as records;
    the page itself (buttons, forms, toasts) is not modelled. */
module Session {
  import opened Text
  import opened Templates

  /** The values of the three forms at the moment of a click. */
  datatype Forms = Forms(signal: SignalFields, analysis: AnalysisFields, education: EducationFields)

  /** What the preview pane holds: the placeholder, or a rendered message. */
  datatype Pane = Placeholder | Showing(text: string)

  /** What a click on "send" does: warn and stop, or post the message. */
  datatype SendOutcome = Warned | Posted(message: string)

  /** The content types the renderers handle. */
  const ContentTypes: set<string> := {"signal", "analysis", "education"}

  /** True when the form of `kind` has all its required fields set. */
  predicate Complete(kind: string, forms: Forms) {
    match kind
    case "signal" => "" !in SignalRequired(forms.signal)
    case "analysis" => "" !in AnalysisRequired(forms.analysis)
    case "education" => "" !in EducationRequired(forms.education)
    case _ => false
  }

  /** The message for the current type: the matching template, or nothing for a type no
      template handles. It is non-empty exactly when the type is known and its form is
      complete, so an empty message always means there is nothing to show or send. */
  function Render(kind: string, forms: Forms, formatDate: string -> string): (m: string)
    ensures m != "" <==> kind in ContentTypes && Complete(kind, forms)
  {
    match kind
    case "signal" => SignalPreview(forms.signal, formatDate)
    case "analysis" => AnalysisPreview(forms.analysis)
    case "education" => EducationPreview(forms.education)
    case _ => ""
  }

  /** The title line and closing line of each type's message. */
  function Title(kind: string): string {
    match kind
    case "signal" => SignalTitle
    case "analysis" => AnalysisTitle
    case _ => EducationTitle
  }

  function Footer(kind: string): string {
    match kind
    case "signal" => SignalFooter
    case "analysis" => AnalysisFooter
    case _ => EducationFooter
  }

  /** A non-empty message names its type: it opens with that type's title line and closes
      with that type's footer. */
  lemma RenderFrame(kind: string, forms: Forms, formatDate: string -> string)
    ensures var m := Render(kind, forms, formatDate);
      m != "" ==> kind in ContentTypes && StartsWith(m, Title(kind) + "\n") && EndsWith(m, Footer(kind))
  {
    if Render(kind, forms, formatDate) != "" {
      match kind
      case "signal" => SignalLayout(forms.signal, formatDate);
      case "analysis" => AnalysisLayout(forms.analysis);
      case "education" => EducationLayout(forms.education);
    }
  }

  /** The content creator page. `buttonTypes` are the `data-type` values of the type
      buttons on the page; switching to a type without a button fails before the current
      type or the pane changes, because the page lookup for that button finds nothing
      (the buttons' highlighting, which is not modelled, has already been cleared). */
  class ContentCreator {
    var currentType: string
    var pane: Pane
    const buttonTypes: set<string>

    constructor(buttonTypes: set<string>)
      ensures currentType == "signal" && pane == Placeholder
      ensures this.buttonTypes == buttonTypes
    {
      currentType := "signal";
      pane := Placeholder;
      this.buttonTypes := buttonTypes;
    }

    /** Selects a content type and clears the preview pane; `ok` is false when the page
        has no button for `kind`, and then the current type and the pane stay as they were. */
    method SwitchContentType(kind: string) returns (ok: bool)
      modifies this
      ensures ok <==> kind in buttonTypes
      ensures ok ==> currentType == kind && pane == Placeholder
      ensures !ok ==> currentType == old(currentType) && pane == old(pane)
    {
      if kind !in buttonTypes {
        return false;
      }
      currentType := kind;
      pane := Placeholder;
      return true;
    }

    /** Shows `content` in the pane; an empty content leaves the pane as it was. The pane
        holds the string handed to the page, which the page reads as markup. */
    method DisplayPreview(content: string)
      modifies this
      ensures currentType == old(currentType)
      ensures pane == if content == "" then old(pane) else Showing(content)
    {
      if content == "" {
        return;
      }
      pane := Showing(content);
    }

    /** Renders the current type's form into the pane. A type no template handles, or a
        form with a required field empty, renders nothing and the pane keeps its content. */
    method GeneratePreview(forms: Forms, formatDate: string -> string)
      modifies this
      ensures currentType == old(currentType)
      ensures var m := Render(currentType, forms, formatDate);
        pane == if m == "" then old(pane) else Showing(m)
    {
      var previewContent := "";
      if currentType == "signal" {
        previewContent := SignalPreview(forms.signal, formatDate);
      } else if currentType == "analysis" {
        previewContent := AnalysisPreview(forms.analysis);
      } else if currentType == "education" {
        previewContent := EducationPreview(forms.education);
      }
      DisplayPreview(previewContent);
    }

    /** Renders the current type's form again and posts it only when it is non-empty;
        otherwise it only warns. A posted message is never empty and carries the frame
        of the current type. */
    method SendToBackend(forms: Forms, formatDate: string -> string) returns (outcome: SendOutcome)
      ensures outcome == Warned <==> !(currentType in ContentTypes && Complete(currentType, forms))
      ensures outcome.Posted? ==>
        outcome.message == Render(currentType, forms, formatDate) && outcome.message != "" &&
        StartsWith(outcome.message, Title(currentType) + "\n") &&
        EndsWith(outcome.message, Footer(currentType))
    {
      var message := "";
      if currentType == "signal" {
        message := SignalPreview(forms.signal, formatDate);
      } else if currentType == "analysis" {
        message := AnalysisPreview(forms.analysis);
      } else if currentType == "education" {
        message := EducationPreview(forms.education);
      }
      if message == "" {
        return Warned;
      }
      RenderFrame(currentType, forms, formatDate);
      return Posted(message);
    }
  }

  // ----- The page's sample data -------------------------------------------------------

  // The long paragraphs of the sample data are parameters rather than literals; the
  // short values are the page's own.

  /** The signal the page can prefill; it sets both take-profit levels but no expiry. */
  function SampleSignal(analysis: string): SignalFields {
    SignalFields("EURUSD", "1H", "BUY", "Medium", "1.0850", "1.0820", "1.0880", "1.0900",
      analysis, "Moderate", "Hans from TradeTab", "")
  }

  /** The market analysis the page can prefill. */
  function SampleAnalysis(title: string, content: string, conclusion: string): AnalysisFields {
    AnalysisFields("GBPUSD", "4H", "Technical", title, content, conclusion, "Hans from TradeTab")
  }

  /** The lesson the page can prefill. */
  function SampleEducation(title: string, content: string, keyPoints: string): EducationFields {
    EducationFields("Risk Management", "Beginner", title, content, keyPoints, "Hans from TradeTab")
  }

  /** With its paragraphs filled in, each prefilled form is complete, so every type renders
      to a message that can be sent. */
  lemma SampleRenders(paragraphs: seq<string>, formatDate: string -> string)
    requires |paragraphs| == 7 && "" !in paragraphs
    ensures var p := paragraphs;
      var forms := Forms(SampleSignal(p[0]), SampleAnalysis(p[1], p[2], p[3]), SampleEducation(p[4], p[5], p[6]));
      forall kind :: kind in ContentTypes ==> Render(kind, forms, formatDate) != ""
  {
    var p := paragraphs;
    assert "" !in SignalRequired(SampleSignal(p[0])) by {
      assert SignalRequired(SampleSignal(p[0])) == ["EURUSD", "1H", "BUY", "Medium", "1.0850", "1.0820",
        p[0], "Moderate", "Hans from TradeTab"];
    }
    assert "" !in AnalysisRequired(SampleAnalysis(p[1], p[2], p[3])) by {
      assert AnalysisRequired(SampleAnalysis(p[1], p[2], p[3])) == ["GBPUSD", "4H", "Technical", p[1], p[2], p[3],
        "Hans from TradeTab"];
    }
    assert "" !in EducationRequired(SampleEducation(p[4], p[5], p[6])) by {
      assert EducationRequired(SampleEducation(p[4], p[5], p[6])) == ["Risk Management", "Beginner", p[4], p[5], p[6],
        "Hans from TradeTab"];
    }
  }

  /** The prefilled signal carries both take-profit lines and, having no expiry, no
      validity line. */
  lemma SampleSignalRenders(analysis: string, formatDate: string -> string)
    requires analysis != ""
    ensures var f := SampleSignal(analysis);
      SignalPreview(f, formatDate) ==
        SignalHeader(f)
        + (PriceBase(f.entry, f.stopLoss) + ("Take Profit 1: " + f.tp1 + "\n") + ("Take Profit 2: " + f.tp2 + "\n\n"))
        + MarketAnalysis(f.analysis)
        + Closing(f.author, SignalFooter)
  {
    var f := SampleSignal(analysis);
    assert "" !in SignalRequired(f) by {
      assert SignalRequired(f) == ["EURUSD", "1H", "BUY", "Medium", "1.0850", "1.0820",
        analysis, "Moderate", "Hans from TradeTab"];
    }
    SignalRendered(f, formatDate);
    assert MarketAnalysis(f.analysis) + ValidityText(f.validUntil, formatDate) == MarketAnalysis(f.analysis);
  }
}
