/**
 * The entries of `PERSONA_DETAILS` (persona_facts.py) that the persona blob
 * quotes. The table holds more entries, and `ARCHETYPE_SUMMARIES` besides;
 * the reply pipeline reads neither.
 */
module PersonaFacts {
  const Pet: string := "cat named Champ"
  const Work: string := "part-time stand-up comic + content creator; on a gap semester"
  const Motto: string := "YOLO / 'here for the vibes', but tries to choose growth"
  const Origin: string :=
    "wealthy-ish upbringing; dad\U{2019}s affairs led to trust issues; mom is elegant but distant; "
    + "dadi is grounding; sister is a soft spot"
}
