/** The air-quality index table used by the air-quality reply. */
module AirQuality {

  /** The provider's 1..5 index and the word the bot reports for it. */
  const Labels: map<int, string> :=
    map[1 := "Good", 2 := "Fair", 3 := "Moderate", 4 := "Poor", 5 := "Very Poor"]

  /** The same words listed by level, the reading order of the index scale. */
  const Scale: seq<string> := ["Good", "Fair", "Moderate", "Poor", "Very Poor"]

  /** Dictionary lookup with 'Unknown' as the default. */
  function Label(aqi: int): (word: string)
    ensures word == "Unknown" <==> !(1 <= aqi <= 5)
    ensures 1 <= aqi <= 5 ==> word == Scale[aqi - 1]
  {
    if aqi in Labels then Labels[aqi] else "Unknown"
  }

  /** Two different levels of the scale are never reported with the same word,
      so the reported word determines the level. */
  lemma LabelInjective(a: int, b: int)
    requires 1 <= a <= 5 && 1 <= b <= 5
    ensures Label(a) == Label(b) ==> a == b
  {
    if a != b {
      assert Label(a)[0] != Label(b)[0];
    }
  }
}
