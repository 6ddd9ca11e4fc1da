# ContentFxTelegram content creator: a Dafny model

ContentFxTelegram's content creator is a browser page. It composes three kinds of Telegram
message from a form: a forex trading signal, a market analysis and an educational note.
It shows the message in a preview pane and posts it to a backend. This project models
the page's `ContentCreator` class in `app.js`:

- **The three renderers** (`generateSignalPreview`, `generateAnalysisPreview`,
  `generateEducationPreview`).
  - They are pure functions from a record of form values to a string, in module
    `Templates` (`templates.dfy`).
  - Each gives `""` when a required field is empty. Otherwise it gives the message,
    built section by section as the source appends it.
  - Every message also has a reference definition as a list of lines. The proofs show
    that the message is that list joined with line breaks.
- **The session state** (`currentType` and the preview pane).
  - This is a class `ContentCreator` in module `Session` (`session.dfy`).
  - `switchContentType`, `generatePreview`, `displayPreview` and the decision part of
    `sendToBackend` become its methods.
- **Generic string facts** are in module `Text` (`text.dfy`): prefixes, suffixes,
  joining lines and splitting a string into lines. The source has no counterpart for
  them.

What is proved:

- **Validity.** A render is empty exactly when a required field is empty. The
  take-profit levels and the expiry never affect validity.
- **Frame.** A non-empty message opens with its type's title line and ends with its
  type's footer. So an empty result can only mean a missing field or an unknown type.
- **Order and values.** Every message has its fixed lines in fixed order, with the
  field values inserted verbatim. Splitting a message at its line breaks gives back
  exactly its line list, provided no value spans several lines.
- **Glyphs.** The direction text and the traffic-light glyphs map as the source's
  conditional chains do, and any unexpected value gets the default.
- **Optional lines.** Each optional signal line is present exactly when its field is
  set, at a fixed place. The second take-profit line brings its own blank line, so the
  market-analysis heading is preceded by a blank line only when that level is set.
- **Session.**
  - Switching type selects the type and clears the pane.
  - Previewing shows the render, or leaves the pane alone when the render is empty.
  - Sending posts only a non-empty message, framed as the current type.
  - A type without a template renders nothing.

## Model

| member | source | states |
|---|---|---|
| Templates.SignalPreview | app.js:92-95 | the signal message is empty if and only if one of symbol, timeframe, direction, confidence, entry, stop loss, analysis, risk or author is empty; the take-profit levels and the expiry are not among them |
| Templates.AnalysisPreview | app.js:138-141 | the analysis message is empty if and only if one of its seven fields is empty |
| Templates.EducationPreview | app.js:167-170 | the educational message is empty if and only if one of its six fields, the key points included, is empty |
| Templates.SignalText | app.js:101-126 | the assembled signal ends with the disclaimer "⚠️ Educational purposes only. Not financial advice." |
| Templates.AnalysisText | app.js:143-156 | the assembled analysis ends with "📚 Educational content" |
| Templates.EducationText | app.js:174-187 | the assembled educational note ends with "📖 Learning material" |
| Templates.Closing | app.js:122-124 | the signature block (author line, rule, footer) ends with the footer |
| Templates.DirectionText | app.js:97 | the direction line is the long text exactly for BUY and the short text exactly for SELL; every other value, unexpected ones included, gets the neutral text |
| Templates.Glyph | app.js:98-99 | a marker is green exactly for the best value, amber exactly for the middle value, and red for every other value; the confidence, risk and level markers all use it |
| Templates.GlyphTables | app.js:98-99 | confidence High/Medium and risk Conservative/Moderate map to green/amber, anything else maps to red, and no other glyph occurs |
| Templates.LevelGlyphTable | app.js:172 | level Beginner/Intermediate maps to green/amber, anything else maps to red, and no other glyph occurs |
| Templates.BannerText | app.js:101-102 | the title banner is the title line, the rule and a blank line |
| Templates.SignalSummaryText | app.js:103-106 | the signal summary is the pair line, the direction line, the confidence line and the risk line followed by a blank line |
| Templates.PriceBaseText | app.js:108-110 | the price block opens with the heading, the entry line and the stop-loss line |
| Templates.OptionalText | app.js:111-120 | each optional signal text is its line (the second take profit and the expiry each with a blank line after it) when the field is set, and nothing when it is empty |
| Templates.MarketAnalysisText | app.js:114-115 | the analysis block is its heading line, the analysis and a blank line |
| Templates.AnalysisHeadingText | app.js:145-148 | the analysis heading is the pair line, the type line with a blank line after it, the title line and the rule with a blank line after it |
| Templates.EducationHeadingText | app.js:176-179 | the education heading is the topic line, the level line with a blank line after it, the title line and the rule with a blank line after it |
| Templates.DiscussionText | app.js:149-151 | the body is the content with a blank line after it, the conclusion or key-points heading, and the detail with a blank line after it |
| Templates.ClosingText | app.js:122-124 | the closing is the author line, the rule and the footer, with no line break after the footer |
| Templates.SignalTextLines | app.js:101-124 | the signal text is the signal's line list joined by line breaks |
| Templates.AnalysisTextLines | app.js:143-154 | the analysis text is the analysis line list joined by line breaks |
| Templates.EducationTextLines | app.js:174-185 | the education text is the education line list joined by line breaks |
| Templates.SignalLayout | app.js:101-124 | a complete signal renders as its line list joined by line breaks; it starts with "📊 FOREX SIGNAL" and a line break and ends with the disclaimer; when every value is one line, splitting the message at line breaks gives back exactly that list |
| Templates.AnalysisLayout | app.js:143-154 | the same for an analysis: it starts with "📊 MARKET ANALYSIS" and a line break, ends with "📚 Educational content", and its lines are the analysis line list |
| Templates.EducationLayout | app.js:174-185 | the same for an educational note: it starts with "📚 EDUCATIONAL CONTENT" and a line break, ends with "📖 Learning material", and its lines are the education line list |
| Templates.TakeProfit1Line | app.js:111 | clearing tp1 never changes whether a signal renders; with tp1 empty the stop-loss line is followed directly by the take-profit-2 line or, without tp2, the market-analysis heading; with it set, the message is the message without it plus "Take Profit 1: {tp1}" and a line break, inserted right after the stop-loss line |
| Templates.TakeProfit1Insert | app.js:111 | the insertion point of the take-profit-1 line is right after the stop-loss line |
| Templates.TakeProfit1Absent | app.js:111 | without tp1, the stop-loss line is followed directly by the take-profit-2 line or the market-analysis heading |
| Templates.TakeProfit2Line | app.js:112 | clearing tp2 never changes whether a signal renders; with tp2 empty the market-analysis heading follows the last price line with no blank line between; with tp2 set, "Take Profit 2: {tp2}" and a blank line are inserted after the last price line and right before "📋 MARKET ANALYSIS:" |
| Templates.TakeProfit2Insert | app.js:112 | the insertion point of the take-profit-2 text lies between the last price line and the market-analysis heading |
| Templates.TakeProfit2Absent | app.js:112 | without tp2, the last price line (take profit 1 or stop loss) is followed directly by "📋 MARKET ANALYSIS:", with no blank line between |
| Templates.ValidUntilLine | app.js:117-120 | clearing the expiry never changes whether a signal renders; with it empty the author line follows the analysis paragraph directly; with it set, "⏰ Valid until: {formatted date}" and a blank line are inserted after the analysis paragraph and right before the author line |
| Templates.ValidUntilInsert | app.js:117-120 | the insertion point of the expiry text lies between the analysis paragraph and the author line |
| Templates.ValidUntilAbsent | app.js:117-120 | without an expiry, the analysis paragraph and its blank line are followed directly by the author line |
| Session.Render | app.js:63-73 | the dispatch on the current type gives a non-empty message if and only if the type is signal, analysis or education and that form is complete; any other type gives nothing |
| Session.RenderFrame | app.js:214-224 | a non-empty message for a type opens with that type's title line and ends with that type's footer |
| Session.ContentCreator.constructor | app.js:3-7 | a new page starts on the signal type with the placeholder in the pane |
| Session.ContentCreator.SwitchContentType | app.js:29-45 | switching to a type that has a button makes it the current type and clears the pane; a type without a button fails before the current type or the pane changes |
| Session.ContentCreator.DisplayPreview | app.js:190-199 | an empty content leaves the pane as it was; any other content is shown |
| Session.ContentCreator.GeneratePreview | app.js:60-76 | the pane shows the current type's render when it is non-empty and otherwise keeps its content; the current type does not change |
| Session.ContentCreator.SendToBackend | app.js:211-229 | it warns if and only if the current type is unknown or its form is incomplete; otherwise it posts the current type's render, which is non-empty and framed by that type's title and footer |
| Session.SampleRenders | app.js:312-341 | the page's sample forms are complete for all three types, so each renders to a sendable message |
| Session.SampleSignalRenders | app.js:314-324 | the sample signal carries both take-profit lines and no expiry line |

## Left out

- The page itself is not modelled. This covers reading form values from the page (they are record parameters), the `innerHTML` markup around the preview, `showForm`, `clearPreview`'s markup, `clearForms` and `setupEventListeners`. The pane is the datatype `Pane`. The preview inserts the message into the page's markup without escaping, so a value containing `<` or `&` is read as markup; `Showing(content)` is the string handed to the page, not the text the page displays.
- The preview-type label set by `switchContentType` (app.js:37) is not modelled, because it is display text only.
- `showToast` and its three-second timer are not modelled, because they are display and timer behaviour. This includes the warning each renderer and `sendToBackend` raise.
- The network POST, JSON encoding and response handling in `sendToBackend` (app.js:231-254) are not modelled. The model stops at the decision, which is `Posted(message)` or `Warned`.
- `new Date(validUntil).toLocaleString()` depends on locale and time zone. It is the parameter `formatDate`.
- Session.ContentCreator.constructor: the page markup decides what the pane shows before the first click. The model starts it with the placeholder.
- Session.ContentCreator.SwitchContentType: in the source, a type without a button throws from the button lookup at app.js:34. By then app.js:31-33 have already cleared every button's highlighting, which is not modelled. The model returns `false` instead, with the current type and the pane unchanged. The buttons present are the constructor's `buttonTypes`.
- Session.SampleRenders: the long paragraphs of the sample data (the analysis texts, titles, contents and key points) are parameters required to be non-empty, not the literal texts. The short values are the page's own.
- `populateSampleData` writes to the page. Only its values are used, in the sample lemmas above.
- Risk scoring, writing advice, favourites, scheduled posts and image upload are described for the product but are not in `app.js`, so they are not modelled.
- Values containing line breaks: the layout lemmas give the exact line list only when no value contains a line break. A multi-line value, such as the sample key points, is still inserted verbatim. The message is still its line list joined by line breaks, but it then splits into more lines.
