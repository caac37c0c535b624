/**
 * The word cloud card: the theme palette, the decision of the drawing effect (draw nothing
 * unless the drawing library is loaded and present and there is at least one valid word), the
 * configuration handed to the library, and the summary statistics the card shows, which are
 * computed over the unfiltered word list.
 */
module WordCloud {
  import opened Wrappers
  import opened Numbers
  import opened Sequences

  /**
   * A `count` field as `sum + word.count` reads it: a number, `null` (added as 0), a boolean
   * (added as 0 or 1), or any other value, which makes the sum NaN (a missing field is
   * `undefined`, which is one of these).
   */
  datatype CountValue = Number(n: int) | NullCount | BoolCount(b: bool) | OtherCount

  /**
   * A word as it arrives; `text` is `None` when missing or not a string. An item of the list is
   * `None` when it is `null` or `undefined`.
   */
  datatype RawWord = RawWord(text: Option<string>, count: CountValue)

  /** The `data` prop; an absent `words` field is `None`. */
  datatype CloudData = CloudData(words: Option<seq<Option<RawWord>>>)

  datatype ThemeColors = ThemeColors(
    palette: seq<string>, hoverColor: string, textColor: string,
    tooltipBg: string, tooltipText: string, tooltipBorder: string)

  const DarkPalette: seq<string> :=
    ["#60A5FA", "#34D399", "#FBBF24", "#A78BFA", "#FB7185",
     "#10B981", "#3B82F6", "#8B5CF6", "#EF4444", "#F59E0B"]

  const LightPalette: seq<string> :=
    ["#1E40AF", "#059669", "#D97706", "#7C3AED", "#DC2626",
     "#0D9488", "#2563EB", "#9333EA", "#EA580C", "#CA8A04"]

  /** `getThemeColors()`: the dark set exactly when the resolved theme is `dark`. */
  function GetThemeColors(resolvedTheme: Option<string>): (c: ThemeColors)
    ensures |c.palette| == 10
    ensures c.palette == DarkPalette <==> resolvedTheme == Some("dark")
    ensures c.palette == LightPalette <==> resolvedTheme != Some("dark")
  {
    assert DarkPalette[0] != LightPalette[0];
    if resolvedTheme == Some("dark") then
      ThemeColors(DarkPalette, "#F8FAFC", "#1E293B", "#1F2937", "#F9FAFB", "#374151")
    else
      ThemeColors(LightPalette, "#1E293B", "#F8FAFC", "#FFFFFF", "#1F2937", "#E5E7EB")
  }

  /** A word of the library configuration. */
  datatype CloudWord = CloudWord(text: string, count: int)

  /** The parts of the library configuration that depend on the data and the theme. */
  datatype CloudConfig = CloudConfig(
    words: seq<CloudWord>, minLength: int, maxItems: int, colors: ThemeColors, borderColor: string)

  /** A present word with a truthy string `text` and a numeric, positive `count`. */
  predicate IsValid(word: Option<RawWord>)
  {
    && word.Some? && word.value.text.Some? && word.value.text.value != ""
    && word.value.count.Number? && word.value.count.n > 0
  }

  /** `validWords`: the valid words, in their original order. */
  function ValidWords(words: seq<Option<RawWord>>): seq<Option<RawWord>>
  {
    Filter(words, IsValid)
  }

  /** `{ text: word.text, count: word.count }` for a valid word. */
  function ToCloudWord(word: Option<RawWord>): CloudWord
  {
    match word
    case None => CloudWord("", 0)
    case Some(w) => CloudWord(w.text.GetOr(""), if w.count.Number? then w.count.n else 0)
  }

  /** `Math.min(validWords.length, 100)`. */
  function MaxItems(n: nat): (m: nat)
    ensures m <= 100 && m <= n
    ensures m == n || m == 100
  {
    if n < 100 then n else 100
  }

  /**
   * What the drawing effect hands to the library, or `None` when it returns without drawing:
   * the script not loaded, no words, the library object missing, or no valid word.
   */
  function Effect(scriptLoaded: bool, data: Option<CloudData>, libraryPresent: bool,
                  resolvedTheme: Option<string>): Option<CloudConfig>
  {
    if !scriptLoaded || data.None? || data.value.words.None? || data.value.words.value == [] || !libraryPresent then None
    else
      var valid := ValidWords(data.value.words.value);
      if valid == [] then None
      else
        var colors := GetThemeColors(resolvedTheme);
        Some(CloudConfig(Map(valid, ToCloudWord), 2, MaxItems(|valid|), colors, colors.palette[0]))
  }

  /** The effect draws exactly when the script and library are there and some word is valid. */
  lemma EffectDraws(scriptLoaded: bool, data: Option<CloudData>, libraryPresent: bool, resolvedTheme: Option<string>)
    ensures Effect(scriptLoaded, data, libraryPresent, resolvedTheme).Some? <==>
      && scriptLoaded && libraryPresent && data.Some? && data.value.words.Some?
      && exists i :: 0 <= i < |data.value.words.value| && IsValid(data.value.words.value[i])
  {
    if scriptLoaded && libraryPresent && data.Some? && data.value.words.Some? {
      var words := data.value.words.value;
      var valid := ValidWords(words);
      if valid != [] {
        assert valid[0] in words;
      } else {
        forall i | 0 <= i < |words| ensures !IsValid(words[i]) {
          assert words[i] in words;
        }
      }
    }
  }

  /**
   * A drawn configuration: its words are the valid words index by index with text and count
   * copied, at most 100 and at least one are drawn, the minimum word length is 2 and the
   * palette is the theme's.
   */
  lemma EffectConfig(scriptLoaded: bool, data: Option<CloudData>, libraryPresent: bool, resolvedTheme: Option<string>)
    requires Effect(scriptLoaded, data, libraryPresent, resolvedTheme).Some?
    ensures var c, valid := Effect(scriptLoaded, data, libraryPresent, resolvedTheme).value, ValidWords(data.value.words.value);
      && |c.words| == |valid|
      && (forall i :: 0 <= i < |valid| ==>
            c.words[i].text == valid[i].value.text.value && c.words[i].count == valid[i].value.count.n > 0)
      && 1 <= c.maxItems <= 100
      && c.maxItems == (if |valid| < 100 then |valid| else 100)
      && c.minLength == 2
      && c.colors == GetThemeColors(resolvedTheme)
      && c.borderColor == c.colors.palette[0]
  {
  }

  /** The statistics row of the card; a NaN total or average is `None`. */
  datatype Summary = Summary(totalWords: nat, totalMentions: Option<int>, topWord: string, avgMentions: Option<int>)

  /** What the card can render; `Crashed` is a render that throws a `TypeError`. */
  datatype View =
    | Loading
    | NoData
    | Crashed
    | Card(summary: Summary)

  /** The value of the JavaScript sum so far: a number, NaN, or thrown. */
  datatype Running = Sum(total: int) | NaN | Threw

  /** What a number, `null` or a boolean adds to a sum. */
  function Numeric(count: CountValue): int
  {
    match count
    case Number(n) => n
    case BoolCount(b) => if b then 1 else 0
    case _ => 0
  }

  /** One step of the `reduce`: `sum + word.count`, which throws on a `null` or `undefined` word. */
  function Step(acc: Running, word: Option<RawWord>): Running
  {
    if acc.Threw? || word.None? then Threw
    else if acc.NaN? || word.value.count.OtherCount? then NaN
    else Sum(acc.total + Numeric(word.value.count))
  }

  /** `words.reduce((sum, word) => sum + word.count, 0)`, from left to right. */
  function Mentions(words: seq<Option<RawWord>>): Running
  {
    if words == [] then Sum(0) else Step(Mentions(words[..|words| - 1]), words[|words| - 1])
  }

  /** `topWord?.text || '-'`. */
  function TopWord(word: Option<RawWord>): string
  {
    if word.Some? && word.value.text.Some? && word.value.text.value != "" then word.value.text.value else "-"
  }

  /** The card for a non-empty, unfiltered word list. */
  function Summarize(words: seq<Option<RawWord>>): View
    requires words != []
  {
    var m := Mentions(words);
    if m.Threw? then Crashed
    else
      var total := if m.Sum? then Some(m.total) else None;
      Card(Summary(|words|, total, TopWord(words[0]),
                   if total.Some? then Some(RoundedMean(total.value, |words|)) else None))
  }

  /** What the card renders. */
  function Render(data: Option<CloudData>, isLoading: bool, scriptLoaded: bool): View
  {
    if isLoading || !scriptLoaded then Loading
    else if data.None? || data.value.words.None? || data.value.words.value == [] then NoData
    else Summarize(data.value.words.value)
  }

  lemma RenderBranches(data: Option<CloudData>, isLoading: bool, scriptLoaded: bool)
    ensures Render(data, isLoading, scriptLoaded) == Loading <==> isLoading || !scriptLoaded
    ensures Render(data, isLoading, scriptLoaded) == NoData <==>
      !isLoading && scriptLoaded && (data.None? || data.value.words.None? || data.value.words.value == [])
  {
  }

  function CountOf(word: Option<RawWord>): int
  {
    if word.Some? then Numeric(word.value.count) else 0
  }

  predicate NoNullWord(words: seq<Option<RawWord>>)
  {
    forall i :: 0 <= i < |words| ==> words[i].Some?
  }

  /** Every word is present and its count is a number, `null` or a boolean. */
  predicate AllNumeric(words: seq<Option<RawWord>>)
  {
    forall i :: 0 <= i < |words| ==> words[i].Some? && !words[i].value.count.OtherCount?
  }

  /**
   * The `reduce` throws exactly when some word is `null` or `undefined`; otherwise it is NaN
   * exactly when some count is neither a number, `null` nor a boolean, and else the sum of what
   * each count adds.
   */
  lemma {:induction false} MentionsClosedForm(words: seq<Option<RawWord>>)
    ensures Mentions(words) ==
      if !NoNullWord(words) then Threw
      else if !AllNumeric(words) then NaN
      else Sum(SumOf(words, CountOf))
  {
    if words != [] {
      var init, last := words[..|words| - 1], words[|words| - 1];
      MentionsClosedForm(init);
      assert words == init + [last];
      SumAppend(init, [last], CountOf);
      assert SumOf([last], CountOf) == CountOf(last);
      assert forall i :: 0 <= i < |init| ==> words[i] == init[i];
      if !NoNullWord(init) {
        var i :| 0 <= i < |init| && init[i].None?;
        assert words[i].None?;
      } else if !AllNumeric(init) {
        var i :| 0 <= i < |init| && !(init[i].Some? && !init[i].value.count.OtherCount?);
        assert !(words[i].Some? && !words[i].value.count.OtherCount?);
      }
    }
  }

  /**
   * The summary counts every word, valid or not. A `null` word makes the render throw;
   * otherwise the card shows the number of words, the sum of all counts (NaN when some count is
   * neither a number, `null` nor a boolean), the first word's text or `-`, and a rounded
   * average that lies between the smallest and largest count.
   */
  lemma SummaryCountsAllWords(words: seq<Option<RawWord>>)
    requires words != []
    ensures Summarize(words) == Crashed <==> exists i :: 0 <= i < |words| && words[i].None?
    ensures Summarize(words).Card? ==>
      var s := Summarize(words).summary;
      && s.totalWords == |words|
      && (s.totalMentions.Some? <==> AllNumeric(words))
      && (s.topWord == "-" <==> words[0].value.text.None? || words[0].value.text.value in {"", "-"})
      && (AllNumeric(words) ==>
            && s.totalMentions == Some(SumOf(words, CountOf))
            && s.avgMentions == Some(RoundedMean(SumOf(words, CountOf), |words|))
            && Min(Map(words, CountOf)) <= s.avgMentions.value <= Max(Map(words, CountOf)))
  {
    MentionsClosedForm(words);
    if AllNumeric(words) {
      var counts := Map(words, CountOf);
      RoundedMeanWithin(words, CountOf, Min(counts), Max(counts));
    }
  }
}
