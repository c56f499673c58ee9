/**
 * Normalisation of Indian state names as they appear in the vendor roster:
 * a fixed alias table, looked up with the raw text as the default.
 */
module StateNames {

  /** Alias -> canonical full name. */
  const StateMap: map<string, string> := map[
    "A.P" := "Andhra Pradesh",
    "AP" := "Andhra Pradesh",
    "C.G" := "Chhattisgarh",
    "CG" := "Chhattisgarh",
    "M.P" := "Madhya Pradesh",
    "MP" := "Madhya Pradesh",
    "T.N" := "Tamil Nadu",
    "TN" := "Tamil Nadu",
    "U.P" := "Uttar Pradesh",
    "UP" := "Uttar Pradesh",
    "K.A" := "Karnataka",
    "KA" := "Karnataka",
    "Orissa" := "Odisha"
  ]

  /** The full names the table produces (`CanonicalNamesAreTableValues`). */
  const CanonicalNames: set<string> := {
    "Andhra Pradesh", "Chhattisgarh", "Madhya Pradesh", "Tamil Nadu",
    "Uttar Pradesh", "Karnataka", "Odisha"
  }

  /** The state text shown for a roster entry: the table's full name, or the raw text unchanged. */
  function NormalizeState(state: string): (name: string)
    ensures state in StateMap ==> name in CanonicalNames
    ensures state in CanonicalNames ==> name == state
    ensures state !in StateMap ==> name == state
  {
    if state in StateMap then StateMap[state] else state
  }

  /** The full names are exactly the values of the alias table. */
  lemma CanonicalNamesAreTableValues()
    ensures StateMap.Values == CanonicalNames
  {
    assert StateMap["AP"] == "Andhra Pradesh" && StateMap["CG"] == "Chhattisgarh";
    assert StateMap["MP"] == "Madhya Pradesh" && StateMap["TN"] == "Tamil Nadu";
    assert StateMap["UP"] == "Uttar Pradesh" && StateMap["KA"] == "Karnataka";
    assert StateMap["Orissa"] == "Odisha";
  }

  /** Every listed alias maps to its full name. */
  lemma NormalizeKnownAliases()
    ensures NormalizeState("A.P") == NormalizeState("AP") == "Andhra Pradesh"
    ensures NormalizeState("C.G") == NormalizeState("CG") == "Chhattisgarh"
    ensures NormalizeState("M.P") == NormalizeState("MP") == "Madhya Pradesh"
    ensures NormalizeState("T.N") == NormalizeState("TN") == "Tamil Nadu"
    ensures NormalizeState("U.P") == NormalizeState("UP") == "Uttar Pradesh"
    ensures NormalizeState("K.A") == NormalizeState("KA") == "Karnataka"
    ensures NormalizeState("Orissa") == "Odisha"
  {
  }

  /** Normalising twice is the same as normalising once. */
  lemma NormalizeIdempotent(state: string)
    ensures NormalizeState(NormalizeState(state)) == NormalizeState(state)
  {
  }

  /**
   * Normalising never introduces a line break or a column bar: neither
   * occurs in a full name.
   */
  lemma NormalizeAvoids(state: string, ch: char)
    requires ch == '\n' || ch == '|'
    requires ch !in state
    ensures ch !in NormalizeState(state)
  {
  }
}
