/** The table of detector classes that are drawn, with the colour each one is
    drawn in (all_labels in app.py). */
module Labels {

  /** Detector class name to outline and text colour. */
  const AllLabels: map<string, string> := map[
    "FEMALE_GENITALIA_COVERED" := "purple",
    "FACE_FEMALE" := "red",
    "BUTTOCKS_EXPOSED" := "orange",
    "FEMALE_BREAST_EXPOSED" := "pink",
    "FEMALE_GENITALIA_EXPOSED" := "purple",
    "MALE_BREAST_EXPOSED" := "green",
    "ANUS_EXPOSED" := "brown",
    "FEET_EXPOSED" := "yellow",
    "BELLY_COVERED" := "pink",
    "FEET_COVERED" := "yellow",
    "ARMPITS_COVERED" := "gray",
    "ARMPITS_EXPOSED" := "gray",
    "FACE_MALE" := "blue",
    "BELLY_EXPOSED" := "pink",
    "MALE_GENITALIA_EXPOSED" := "purple",
    "ANUS_COVERED" := "brown",
    "FEMALE_BREAST_COVERED" := "pink",
    "BUTTOCKS_COVERED" := "orange"
  ]

  /** The colour `all_labels.get` falls back to for a class not in the table. */
  const Fallback: string := "black"

  /** The colours the table uses. */
  const Palette: set<string> := {"purple", "red", "orange", "pink", "green", "brown", "yellow", "gray", "blue"}

  /** all_labels.get(name, "black"). The fallback colour is not a table
      colour, so the colour alone tells whether the class is known. */
  function ColorOf(name: string): (color: string)
    ensures name in AllLabels ==> color == AllLabels[name] && color in Palette
    ensures color == Fallback <==> name !in AllLabels
  {
    if name in AllLabels then AllLabels[name] else Fallback
  }

  /** Every table colour belongs to the palette, and every palette colour is
      used by some class. */
  lemma PaletteIsTableColours()
    ensures AllLabels.Values == Palette
  {
    assert AllLabels["FEMALE_GENITALIA_COVERED"] == "purple";
    assert AllLabels["FACE_FEMALE"] == "red";
    assert AllLabels["BUTTOCKS_EXPOSED"] == "orange";
    assert AllLabels["FEMALE_BREAST_EXPOSED"] == "pink";
    assert AllLabels["MALE_BREAST_EXPOSED"] == "green";
    assert AllLabels["ANUS_EXPOSED"] == "brown";
    assert AllLabels["FEET_EXPOSED"] == "yellow";
    assert AllLabels["ARMPITS_COVERED"] == "gray";
    assert AllLabels["FACE_MALE"] == "blue";
  }
}
