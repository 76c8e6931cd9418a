/** The user's self-reported DJ experience, chosen on the skill-selection step. */
module Skills {
  import opened Wrappers

  /** A closed enumeration of exactly three skill levels, in declaration order. */
  datatype DJSkill = New | Amateur | Professional

  /** Every skill, in the order the enumeration declares them. */
  const AllSkills: seq<DJSkill> := [New, Amateur, Professional]

  /** The user-facing label of a skill. The apostrophes are typographic (U+2019). */
  function LocalizedDescription(skill: DJSkill): (r: string)
    ensures |r| > 2 && r[0] == 'I' && r[1] == '\U{2019}'
  {
    match skill
    case New => "I\U{2019}m new to DJing"
    case Amateur => "I\U{2019}ve used DJ apps before"
    case Professional => "I\U{2019}m a professional DJ"
  }

  /** Reference inverse of LocalizedDescription: the skill whose label is `text`, if any. */
  function SkillWithDescription(text: string): (r: Option<DJSkill>)
    ensures r.Some? ==> LocalizedDescription(r.value) == text
    ensures r.None? ==> forall s: DJSkill :: LocalizedDescription(s) != text
  {
    if text == LocalizedDescription(New) then Some(New)
    else if text == LocalizedDescription(Amateur) then Some(Amateur)
    else if text == LocalizedDescription(Professional) then Some(Professional)
    else None
  }

  /** The enumeration has exactly the three listed cases, each once. */
  lemma SkillsEnumerated(skill: DJSkill)
    ensures skill in AllSkills
    ensures |AllSkills| == 3
    ensures forall i, j :: 0 <= i < j < |AllSkills| ==> AllSkills[i] != AllSkills[j]
  {
  }

  /** The three labels, as the user sees them. */
  lemma DescriptionTexts()
    ensures LocalizedDescription(New) == "I\U{2019}m new to DJing"
    ensures LocalizedDescription(Amateur) == "I\U{2019}ve used DJ apps before"
    ensures LocalizedDescription(Professional) == "I\U{2019}m a professional DJ"
  {
  }

  /** Distinct skills are shown with distinct labels. */
  lemma DescriptionInjective(a: DJSkill, b: DJSkill)
    requires a != b
    ensures LocalizedDescription(a) != LocalizedDescription(b)
  {
  }

  /** A label read back through the reference inverse gives the skill it came from. */
  lemma DescriptionRoundTrip(skill: DJSkill)
    ensures SkillWithDescription(LocalizedDescription(skill)) == Some(skill)
  {
  }
}
