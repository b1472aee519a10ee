/** The condition card of the coin detail page: the grade's score out of a
    hundred, the colour band the score falls in, and the one line of
    description shown under it. */
module ConditionAssessment {
  import opened JsText

  /** The grades of the score table, from worst to best. */
  const Grades: seq<string> :=
    ["Poor", "Fair", "Good", "Very Good", "Fine", "Very Fine", "Extremely Fine", "About Uncirculated", "Uncirculated"]

  /** The score of each grade of the table, in the order of `Grades`. */
  const GradeScores: seq<int> := [20, 35, 50, 65, 75, 85, 92, 96, 100]

  /** The score an unlisted condition gets. */
  const DefaultScore: int := 50

  /** The table `getConditionScore` looks the condition up in; a name it
      does not list is absent. */
  function TableScore(condition: string): (s: Option<int>)
  {
    match condition
    case "Poor" => Some(20)
    case "Fair" => Some(35)
    case "Good" => Some(50)
    case "Very Good" => Some(65)
    case "Fine" => Some(75)
    case "Very Fine" => Some(85)
    case "Extremely Fine" => Some(92)
    case "About Uncirculated" => Some(96)
    case "Uncirculated" => Some(100)
    case _ => None
  }

  /** `scores[condition] || 50`: a missing entry, or a falsy one, gives the
      default. */
  function ConditionScore(condition: string): (score: int)
    ensures 20 <= score <= 100
    ensures TableScore(condition).None? ==> score == DefaultScore
  {
    match TableScore(condition)
    case Some(s) => if s != 0 then s else DefaultScore
    case None => DefaultScore
  }

  /** Each grade of the table scores its listed value. */
  lemma GradeScoreAt(i: int)
    requires 0 <= i < |Grades|
    ensures ConditionScore(Grades[i]) == GradeScores[i]
  {
  }

  /** The nine grades are listed in strictly increasing order of score. */
  lemma ScoresIncrease(i: int, j: int)
    requires 0 <= i < j < |Grades|
    ensures ConditionScore(Grades[i]) < ConditionScore(Grades[j])
  {
    GradeScoreAt(i);
    GradeScoreAt(j);
  }

  // ---------------------------------------------------------------------------
  // Colour bands

  /** The four colour tones, from best to worst. */
  datatype Tone = Success | Warning | Accent | Destructive

  /** The band a score falls in: 90 and above, 75 to 89, 50 to 74, and
      below 50. */
  function Band(score: int): (t: Tone)
    ensures t == Success <==> score >= 90
    ensures t == Warning <==> 75 <= score < 90
    ensures t == Accent <==> 50 <= score < 75
    ensures t == Destructive <==> score < 50
  {
    if score >= 90 then Success
    else if score >= 75 then Warning
    else if score >= 50 then Accent
    else Destructive
  }

  /** `getConditionColor`, the class of the grade and of the score text. */
  function TextColor(score: int): (c: string)
  {
    if score >= 90 then "text-success"
    else if score >= 75 then "text-warning"
    else if score >= 50 then "text-accent"
    else "text-destructive"
  }

  /** The progress bar's own chain of conditions. */
  function BarColor(score: int): (c: string)
  {
    if score >= 90 then "bg-success"
    else if score >= 75 then "bg-warning"
    else if score >= 50 then "bg-accent"
    else "bg-destructive"
  }

  /** The text class and the bar class of each tone. */
  function TextClass(t: Tone): (c: string)
  {
    match t
    case Success => "text-success"
    case Warning => "text-warning"
    case Accent => "text-accent"
    case Destructive => "text-destructive"
  }

  function BarClass(t: Tone): (c: string)
  {
    match t
    case Success => "bg-success"
    case Warning => "bg-warning"
    case Accent => "bg-accent"
    case Destructive => "bg-destructive"
  }

  /** The text and the bar are coloured by the same band: the two chains
      use the same thresholds, so both are the classes of the score's
      tone. */
  lemma ColorsShareBand(score: int)
    ensures TextColor(score) == TextClass(Band(score))
    ensures BarColor(score) == BarClass(Band(score))
  {
  }

  /** A better score never falls in a worse band. */
  function ToneRank(t: Tone): (r: nat)
  {
    match t
    case Success => 0
    case Warning => 1
    case Accent => 2
    case Destructive => 3
  }

  lemma BandIsMonotone(a: int, b: int)
    requires a <= b
    ensures ToneRank(Band(b)) <= ToneRank(Band(a))
  {
  }

  /** Where the grades land: the three best grades in the top band, Fine
      and Very Fine in the second, Good and Very Good (and every unlisted
      condition) in the third, Fair and Poor in the last. */
  lemma GradeBands(condition: string)
    ensures condition in {"Extremely Fine", "About Uncirculated", "Uncirculated"} ==> Band(ConditionScore(condition)) == Success
    ensures condition in {"Fine", "Very Fine"} ==> Band(ConditionScore(condition)) == Warning
    ensures condition in {"Good", "Very Good"} || TableScore(condition).None? ==> Band(ConditionScore(condition)) == Accent
    ensures condition in {"Fair", "Poor"} ==> Band(ConditionScore(condition)) == Destructive
  {
  }

  // ---------------------------------------------------------------------------
  // Description

  const VeryFineText: string := "Shows moderate wear on high points. All major details are clear and bold."
  const ExtremelyFineText: string := "Light wear on highest points. All details sharp and clear."
  const UncirculatedText: string := "No trace of wear. Original mint luster present."
  const GenericText: string := "Condition assessment based on professional grading standards."

  /** The four `condition && text` slots of the description paragraph; a
      false condition renders nothing. */
  function DescriptionSlots(condition: string): (slots: seq<Option<string>>)
    ensures |slots| == 4
  {
    [ if condition == "Very Fine" then Some(VeryFineText) else None,
      if condition == "Extremely Fine" then Some(ExtremelyFineText) else None,
      if condition == "Uncirculated" then Some(UncirculatedText) else None,
      if condition !in ["Very Fine", "Extremely Fine", "Uncirculated"] then Some(GenericText) else None ]
  }

  /** The texts the paragraph shows, in order. */
  function Shown(slots: seq<Option<string>>): (texts: seq<string>)
    ensures |texts| <= |slots|
  {
    if slots == [] then []
    else (if slots[0].Some? then [slots[0].value] else []) + Shown(slots[1..])
  }

  /** The description meant for each condition. */
  function Description(condition: string): (text: string)
  {
    if condition == "Very Fine" then VeryFineText
    else if condition == "Extremely Fine" then ExtremelyFineText
    else if condition == "Uncirculated" then UncirculatedText
    else GenericText
  }

  /** Exactly one description is shown, and it is the one meant for the
      condition: the four slots' conditions are mutually exclusive and
      together cover every condition. */
  lemma ExactlyOneDescription(condition: string)
    ensures Shown(DescriptionSlots(condition)) == [Description(condition)]
  {
    var s0 := DescriptionSlots(condition);
    var s1 := s0[1..];
    var s2 := s1[1..];
    var s3 := s2[1..];
    assert Shown(s3[1..]) == [];
    if condition == "Very Fine" {
      assert Shown(s0) == [VeryFineText] + Shown(s1);
      assert Shown(s1) == [];
    } else if condition == "Extremely Fine" {
      assert Shown(s1) == [ExtremelyFineText] + Shown(s2);
      assert Shown(s2) == [];
    } else if condition == "Uncirculated" {
      assert Shown(s2) == [UncirculatedText] + Shown(s3);
      assert Shown(s3) == [];
    } else {
      assert condition !in ["Very Fine", "Extremely Fine", "Uncirculated"];
      assert Shown(s3) == [GenericText] + Shown(s3[1..]);
      assert Shown(s0) == Shown(s1) == Shown(s2) == Shown(s3);
    }
  }
}
