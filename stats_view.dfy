/** The session report of the client: which image stands for a personality,
    and what the summary panel shows for a session summary. */
module StatsView {
  import opened DurationFormat

  // ---------------------------------------------------------------------------
  // Personality image lookup
  // ---------------------------------------------------------------------------

  /** One entry of the personality card list: (icon, title, description). */
  datatype Card = Card(icon: string, title: string, description: string)

  const DefaultImage: string := "test.png"

  /** `i` is the first card whose title is `personality`. */
  predicate IsFirstMatch(cards: seq<Card>, personality: string, i: int)
  {
    0 <= i < |cards| && cards[i].title == personality &&
    forall j :: 0 <= j < i ==> cards[j].title != personality
  }

  /** `_personality_to_image_filename`. `preferred` is the floating widget's
      personality-to-image map, None when importing it failed; `cards` is the
      card list, empty when the names module has none. */
  method PersonalityToImageFilename(personality: string, preferred: Option<map<string, string>>, cards: seq<Card>)
    returns (filename: string)
    ensures preferred.Some? && personality in preferred.value ==>
      filename == preferred.value[personality]
    ensures (!(preferred.Some? && personality in preferred.value) &&
             exists i :: 0 <= i < |cards| && cards[i].title == personality) ==>
      exists i :: IsFirstMatch(cards, personality, i) && filename == cards[i].icon
    ensures (!(preferred.Some? && personality in preferred.value) &&
             forall i :: 0 <= i < |cards| ==> cards[i].title != personality) ==>
      filename == DefaultImage
  {
    if preferred.Some? && personality in preferred.value {
      return preferred.value[personality];
    }
    var i := 0;
    while i < |cards|
      invariant 0 <= i <= |cards|
      invariant forall j :: 0 <= j < i ==> cards[j].title != personality
    {
      if cards[i].title == personality {
        assert IsFirstMatch(cards, personality, i);
        return cards[i].icon;
      }
      i := i + 1;
    }
    return DefaultImage;
  }

  // ---------------------------------------------------------------------------
  // Summary panel
  // ---------------------------------------------------------------------------

  /** A summary entry as `set_summary` finds it: absent, an integer (what
      Python's `int` made of it), or a value `int` rejects. */
  datatype Field = Missing | Given(n: int) | Unconvertible

  /** The summary dictionary. `counts` is the event-key-to-count map; an absent,
      None or empty "counts" entry is the empty map. */
  datatype Summary = Summary(counts: map<string, int>, totalViolations: Field, durationSeconds: Field)

  const EmptySummary: Summary := Summary(map[], Missing, Missing)

  datatype Banner = ViolationsDetected | PerfectSession
  {
    function Text(): string
    {
      match this
      case ViolationsDetected => "VIOLATIONS DETECTED"
      case PerfectSession => "PERFECT SESSION"
    }
  }

  datatype DetailRow = DetailRow(caption: string, count: int)

  /** What the panel shows: the big total, the duration text, the banner under
      the total, and the per-kind rows in display order. */
  datatype Display = Display(total: int, duration: string, banner: Banner, details: seq<DetailRow>)

  datatype SummaryError = TotalNotAnInteger

  datatype DisplayResult = Shown(display: Display) | Raised(error: SummaryError)

  // Event keys of the vision client; their string values live in
  // shared/constants.py, which is not part of this model, and are taken to be
  // the constant names.
  const PhoneDetected: string := "PHONE_DETECTED"
  const Sleeping: string := "SLEEPING"
  const Absent: string := "ABSENT"
  const GazeAway: string := "GAZE_AWAY"
  const DistractingActivity: string := "DISTRACTING_ACTIVITY"

  const DetailLabels: seq<string> := ["PHONE ADDICTION", "SLEEPING", "ABSENT", "UNKNOWN GLAZE", "SCREEN PLAY"]
  const DetailKeys: seq<string> := [PhoneDetected, Sleeping, Absent, GazeAway, DistractingActivity]

  /** `counts.get(key, 0)`. */
  function CountOf(counts: map<string, int>, key: string): int
  {
    if key in counts then counts[key] else 0
  }

  /** `summary or {}`. */
  function Normalize(summary: Option<Summary>): Summary
  {
    match summary
    case None => EmptySummary
    case Some(s) => s
  }

  /** The argument `set_summary` hands to the duration formatter: 0.0 when the
      key is absent, None when the value does not convert. */
  function DurationArgument(f: Field): Option<int>
  {
    match f
    case Missing => Some(0)
    case Given(n) => Some(n)
    case Unconvertible => None
  }

  function DetailRows(counts: map<string, int>): (rows: seq<DetailRow>)
  {
    seq(|DetailKeys|, i requires 0 <= i < |DetailKeys| => DetailRow(DetailLabels[i], CountOf(counts, DetailKeys[i])))
  }

  /** The values `set_summary` puts on the panel, or the error it raises when
      "total_violations" is not an integer (before any label changes). */
  function SummaryDisplay(summary: Option<Summary>): (r: DisplayResult)
    ensures r.Raised? <==> Normalize(summary).totalViolations.Unconvertible?
    ensures r.Shown? ==>
      (|r.display.details| == |DetailKeys| &&
       (r.display.banner == ViolationsDetected <==> r.display.total > 0))
  {
    var s := Normalize(summary);
    if s.totalViolations.Unconvertible? then Raised(TotalNotAnInteger)
    else
      var total := if s.totalViolations.Given? then s.totalViolations.n else 0;
      Shown(Display(
        total,
        FormatDuration(DurationArgument(s.durationSeconds)),
        if total > 0 then ViolationsDetected else PerfectSession,
        DetailRows(s.counts)))
  }

  /** set_summary raises exactly when "total_violations" is present and not an
      integer; otherwise the total is that integer, or 0 when absent. */
  lemma SummaryTotal(summary: Option<Summary>)
    ensures SummaryDisplay(summary).Raised? <==> Normalize(summary).totalViolations.Unconvertible?
    ensures Normalize(summary).totalViolations.Given? ==>
      SummaryDisplay(summary).display.total == Normalize(summary).totalViolations.n
    ensures Normalize(summary).totalViolations.Missing? ==> SummaryDisplay(summary).display.total == 0
  {
  }

  /** The banner reads "VIOLATIONS DETECTED" iff the total is positive, and
      "PERFECT SESSION" otherwise (zero and negative totals included). */
  lemma SummaryBanner(summary: Option<Summary>)
    requires SummaryDisplay(summary).Shown?
    ensures var d := SummaryDisplay(summary).display;
      (d.banner.Text() == "VIOLATIONS DETECTED" <==> d.total > 0) &&
      (d.banner.Text() == "PERFECT SESSION" <==> d.total <= 0)
  {
  }

  /** The duration label reads back as the clamped duration, and as 0 when the
      value is absent or does not convert. */
  lemma SummaryDuration(summary: Option<Summary>)
    requires SummaryDisplay(summary).Shown?
    ensures var f := Normalize(summary).durationSeconds;
      ParseClock(SummaryDisplay(summary).display.duration) ==
        Some(if f.Given? && f.n > 0 then f.n else 0)
  {
    ParseFormatDuration(DurationArgument(Normalize(summary).durationSeconds));
  }

  /** Exactly five rows, in declaration order, each showing the count under its
      event key, or 0 when the key is absent. */
  lemma SummaryDetails(summary: Option<Summary>)
    requires SummaryDisplay(summary).Shown?
    ensures var rows := SummaryDisplay(summary).display.details;
      var counts := Normalize(summary).counts;
      |rows| == 5 &&
      forall i :: 0 <= i < 5 ==>
        rows[i].caption == DetailLabels[i] &&
        (DetailKeys[i] in counts ==> rows[i].count == counts[DetailKeys[i]]) &&
        (DetailKeys[i] !in counts ==> rows[i].count == 0)
  {
  }

  /** A count under any other key is never displayed. */
  lemma SummaryIgnoresOtherKeys(s: Summary, key: string, n: int)
    requires key !in DetailKeys
    ensures SummaryDisplay(Some(s.(counts := s.counts[key := n]))) == SummaryDisplay(Some(s))
  {
  }

  /** A missing summary (None, or an empty dictionary) shows total 0,
      "00:00:00", "PERFECT SESSION" and a 0 on every row. */
  lemma SummaryOfNothing()
    ensures SummaryDisplay(None) == SummaryDisplay(Some(EmptySummary))
    ensures SummaryDisplay(None) ==
      Shown(Display(0, "00:00:00", PerfectSession,
        [DetailRow("PHONE ADDICTION", 0), DetailRow("SLEEPING", 0), DetailRow("ABSENT", 0),
         DetailRow("UNKNOWN GLAZE", 0), DetailRow("SCREEN PLAY", 0)]))
  {
    FormatDurationClampsToZero(Some(0));
  }

  /** The left panel of the report. The per-kind value labels are a fixed array
      of five, in the order of `DetailLabels`. */
  class StatsSummaryWidget {
    var total: int
    var subtitle: string
    var duration: string
    const details: array<int>

    ghost predicate Valid()
      reads this
    {
      details.Length == |DetailKeys|
    }

    /** The panel shows display `d`. */
    ghost predicate Shows(d: Display)
      reads this, details
    {
      total == d.total && subtitle == d.banner.Text() && duration == d.duration &&
      details.Length == |d.details| &&
      forall i :: 0 <= i < details.Length ==> details[i] == d.details[i].count
    }

    /** The widget starts with placeholder labels and then shows the summary of
        nothing. */
    constructor ()
      ensures Valid() && fresh(details)
      ensures Shows(SummaryDisplay(None).display)
    {
      total := 0;
      subtitle := "TOTAL VIOLATIONS";
      duration := "00:00:00";
      details := new int[5](_ => 0);
      new;
      var _ := SetSummary(None);
    }

    /** `set_summary`: on an unconvertible total it raises and nothing changes;
        otherwise the panel shows `SummaryDisplay(summary)`. */
    method SetSummary(summary: Option<Summary>) returns (ok: bool)
      requires Valid()
      modifies this, details
      ensures Valid()
      ensures ok <==> SummaryDisplay(summary).Shown?
      ensures ok ==> Shows(SummaryDisplay(summary).display)
      ensures !ok ==> unchanged(this, details)
    {
      var s := Normalize(summary);
      if s.totalViolations.Unconvertible? {
        return false;
      }
      var violations := if s.totalViolations.Given? then s.totalViolations.n else 0;
      total := violations;
      duration := FormatDuration(DurationArgument(s.durationSeconds));
      if violations > 0 {
        subtitle := ViolationsDetected.Text();
      } else {
        subtitle := PerfectSession.Text();
      }
      ShowCounts(s.counts);
      return true;
    }

    /** The "Update Details" loop: each value label shows the count under its
        event key, or 0. */
    method ShowCounts(counts: map<string, int>)
      requires Valid()
      modifies details
      ensures forall j :: 0 <= j < details.Length ==> details[j] == DetailRows(counts)[j].count
    {
      var rows := DetailRows(counts);
      for i := 0 to details.Length
        invariant forall j :: 0 <= j < i ==> details[j] == rows[j].count
      {
        var count := CountOf(counts, DetailKeys[i]);
        assert count == rows[i].count;
        details[i] := count;
      }
    }
  }
}
