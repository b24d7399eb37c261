/**
 * The feature extractor `preprocess_symptoms`: a symptoms string and a patient
 * record become a vector of exactly six integers.
 */
module Features {
  import opened Wrappers
  import opened Json
  import opened Text

  /** The `patientData` record; every key is optional. */
  datatype Patient = Patient(
    age: Option<int>,
    gender: Option<string>,
    medicalHistory: Option<string>,
    currentMeds: Option<string>,
    allergies: Option<string>)

  /** A text field read with `.get(key, "")`. */
  function TextOr(field: Option<string>): (s: string)
    ensures field.None? ==> s == ""
    ensures field.Some? ==> s == field.value
  {
    field.GetOr("")
  }

  /**
   * `preprocess_symptoms(symptoms_text, patient_data)`: the number of
   * comma-separated segments of the lower-cased symptoms, the age (default 0),
   * 1 for the gender "Male" and 0 otherwise, and the word counts of the
   * medical history, the current medication and the allergies.
   */
  function Preprocess(symptomsText: string, p: Patient): (features: seq<int>)
    ensures |features| == 6
    ensures features[0] == Count(symptomsText, ',') + 1
    ensures features[0] >= 1
    ensures p.age.None? ==> features[1] == 0
    ensures p.age.Some? ==> features[1] == p.age.value
    ensures features[2] == 1 <==> p.gender == Some("Male")
    ensures features[2] == 0 <==> p.gender != Some("Male")
    ensures features[3] >= 0 && features[4] >= 0 && features[5] >= 0
    ensures features[3] == 0 <==> AllSpace(TextOr(p.medicalHistory))
    ensures features[4] == 0 <==> AllSpace(TextOr(p.currentMeds))
    ensures features[5] == 0 <==> AllSpace(TextOr(p.allergies))
  {
    [ SegmentCount(symptomsText),
      p.age.GetOr(0),
      if p.gender == Some("Male") then 1 else 0,
      FieldWords(p.medicalHistory),
      FieldWords(p.currentMeds),
      FieldWords(p.allergies) ]
  }

  /** `len(symptoms_text.lower().split(","))`: one more than the number of commas. */
  function SegmentCount(symptomsText: string): (n: int)
    ensures n == Count(symptomsText, ',') + 1
  {
    LowerKeepsCommas(symptomsText);
    |Split(Lower(symptomsText), ',')|
  }

  /** `len(field.split())` of a text field read with the default `""`. */
  function FieldWords(field: Option<string>): (n: int)
    ensures n >= 0
    ensures n == 0 <==> AllSpace(TextOr(field))
  {
    NoWordsIffAllSpace(TextOr(field));
    WordCount(TextOr(field))
  }

  /** The segment count does not depend on letter case. */
  lemma SegmentCountIgnoresCase(symptomsText: string, p: Patient)
    ensures Preprocess(Lower(symptomsText), p)[0] == Preprocess(symptomsText, p)[0]
  {
    LowerKeepsCommas(symptomsText);
  }

  /** Each word-count feature is the number of word starts in its field. */
  lemma WordFeaturesAreWordStarts(symptomsText: string, p: Patient)
    ensures Preprocess(symptomsText, p)[3] == ScanCount(TextOr(p.medicalHistory), false)
    ensures Preprocess(symptomsText, p)[4] == ScanCount(TextOr(p.currentMeds), false)
    ensures Preprocess(symptomsText, p)[5] == ScanCount(TextOr(p.allergies), false)
  {
    WordCountIsScan(TextOr(p.medicalHistory));
    WordCountIsScan(TextOr(p.currentMeds));
    WordCountIsScan(TextOr(p.allergies));
  }

  /** An empty symptoms string and an empty record give [1, 0, 0, 0, 0, 0]. */
  lemma EmptyInput()
    ensures Preprocess("", Patient(None, None, None, None, None)) == [1, 0, 0, 0, 0, 0]
  {
  }

  /** A worked example: "fever, cough" and a 30-year-old male patient. */
  lemma WorkedExample(symptomsText: string, p: Patient)
    requires symptomsText == "fever, cough"
    requires p == Patient(Some(30), Some("Male"), Some("asthma since childhood"), Some(""), Some("pollen"))
    ensures Preprocess(symptomsText, p) == [2, 30, 1, 3, 0, 1]
  {
    CommaCountExample();
    assert Count(symptomsText, ',') == 1;
    HistoryWordsExample();
    assert WordCount(TextOr(p.medicalHistory)) == 3;
    PollenExample();
    assert WordCount(TextOr(p.allergies)) == 1;
    assert WordCount(TextOr(p.currentMeds)) == 0;
    WordCountIsScan(TextOr(p.medicalHistory));
    WordCountIsScan(TextOr(p.currentMeds));
    WordCountIsScan(TextOr(p.allergies));
    FeaturesInOrder(symptomsText, p);
  }

  /**
   * The whole vector, in order, against the independent definitions: the comma
   * count plus one, the age or 0, the "Male" flag, and the word-start counts of
   * the history, the medication and the allergies.
   */
  lemma FeaturesInOrder(s: string, p: Patient)
    ensures Preprocess(s, p) == [
      Count(s, ',') + 1,
      p.age.GetOr(0),
      if p.gender == Some("Male") then 1 else 0,
      ScanCount(TextOr(p.medicalHistory), false),
      ScanCount(TextOr(p.currentMeds), false),
      ScanCount(TextOr(p.allergies), false)]
  {
    var flag := if p.gender == Some("Male") then 1 else 0;
    var f := [SegmentCount(s), p.age.GetOr(0), flag,
      FieldWords(p.medicalHistory), FieldWords(p.currentMeds), FieldWords(p.allergies)];
    assert Preprocess(s, p) == f;
    WordCountIsScan(TextOr(p.medicalHistory));
    WordCountIsScan(TextOr(p.currentMeds));
    WordCountIsScan(TextOr(p.allergies));
    var e := [Count(s, ',') + 1, p.age.GetOr(0), flag,
      ScanCount(TextOr(p.medicalHistory), false),
      ScanCount(TextOr(p.currentMeds), false),
      ScanCount(TextOr(p.allergies), false)];
    SameSix(f, e);
  }

  lemma SameSix(f: seq<int>, e: seq<int>)
    requires |f| == 6 && |e| == 6
    requires f[0] == e[0] && f[1] == e[1] && f[2] == e[2]
    requires f[3] == e[3] && f[4] == e[4] && f[5] == e[5]
    ensures f == e
  {
  }

  lemma CommaCountExample()
    ensures Count("fever, cough", ',') == 1
  {
    var head, tail := "fever", " cough";
    assert "fever, cough" == head + ([','] + tail);
    CountAppend(head, [','] + tail, ',');
    assert Count(head, ',') == 0;
    assert Count(tail, ',') == 0;
  }

  lemma PollenExample()
    ensures WordCount("pollen") == 1
  {
    WordsOfWord("pollen", "");
    assert "pollen" + "" == "pollen";
  }

  lemma HistoryWordsExample()
    ensures WordCount("asthma since childhood") == 3
  {
    var words := ["asthma", "since", "childhood"];
    assert Join(words, ' ') == "asthma since childhood";
    WordsJoin(words);
  }

  // ---------------------------------------------------------------------------
  // Reading the record out of the decoded `patientData` value

  /** An optional text field: absent is None; a present non-string makes `.split()` fail. */
  function TextField(fields: map<string, Json>, key: string): (r: Option<Option<string>>)
    ensures r == None <==> key in fields && !fields[key].JStr?
    ensures r == Some(None) <==> key !in fields
    ensures r.Some? && r.value.Some? ==> fields[key] == JStr(r.value.value)
  {
    if key !in fields then Some(None)
    else match fields[key]
      case JStr(s) => Some(Some(s))
      case _ => None
  }

  /**
   * The record `preprocess_symptoms` reads from `patient_data`, or None where
   * the source raises: `patient_data` not a dict, a text field that is not a
   * string, or an `age` that is not an integer (see README). A gender that is
   * not a string never equals "Male", so it is read as absent.
   */
  function PatientOf(j: Json): (r: Option<Patient>)
    ensures r.Some? <==>
      && j.JObj?
      && ("age" in j.fields ==> j.fields["age"].JNum?)
      && TextField(j.fields, "medicalHistory").Some?
      && TextField(j.fields, "currentMeds").Some?
      && TextField(j.fields, "allergies").Some?
    ensures r.Some? ==> r.value.age == (if "age" in j.fields then Some(j.fields["age"].n) else None)
    ensures r.Some? ==> r.value.medicalHistory == TextField(j.fields, "medicalHistory").value
    ensures r.Some? ==> r.value.currentMeds == TextField(j.fields, "currentMeds").value
    ensures r.Some? ==> r.value.allergies == TextField(j.fields, "allergies").value
    ensures r.Some? ==> (r.value.gender == Some("Male") <==> "gender" in j.fields && j.fields["gender"] == JStr("Male"))
  {
    match j
    case JObj(fields) =>
      var history := TextField(fields, "medicalHistory");
      var meds := TextField(fields, "currentMeds");
      var allergies := TextField(fields, "allergies");
      if "age" in fields && !fields["age"].JNum? then None
      else if history.None? || meds.None? || allergies.None? then None
      else
        var age := if "age" in fields then Some(fields["age"].n) else None;
        var gender := if "gender" in fields && fields["gender"].JStr? then Some(fields["gender"].s) else None;
        Some(Patient(age, gender, history.value, meds.value, allergies.value))
    case _ => None
  }

  /** `m` with `key` set to the value, if there is one. */
  function Put(m: map<string, Json>, key: string, v: Option<Json>): (r: map<string, Json>)
    ensures key in r <==> key in m || v.Some?
    ensures v.Some? ==> r[key] == v.value
    ensures forall k :: k != key ==> (k in r <==> k in m)
    ensures forall k :: k != key && k in m ==> r[k] == m[k]
  {
    if v.Some? then m[key := v.value] else m
  }

  function StrOf(s: Option<string>): Option<Json> {
    if s.Some? then Some(JStr(s.value)) else None
  }

  /** The dict that carries exactly the fields of a record. */
  function PatientJson(p: Patient): Json {
    var age := if p.age.Some? then Some(JNum(p.age.value)) else None;
    JObj(Put(Put(Put(Put(Put(map[], "age", age), "gender", StrOf(p.gender)),
      "medicalHistory", StrOf(p.medicalHistory)), "currentMeds", StrOf(p.currentMeds)), "allergies", StrOf(p.allergies)))
  }

  /** Every record is read back from its own dict. */
  lemma PatientRoundTrip(p: Patient)
    ensures PatientOf(PatientJson(p)) == Some(p)
  {
    var m := PatientJson(p).fields;
    assert ("age" in m) == p.age.Some? && (p.age.Some? ==> m["age"] == JNum(p.age.value));
    assert ("gender" in m) == p.gender.Some? && (p.gender.Some? ==> m["gender"] == JStr(p.gender.value));
    assert TextField(m, "medicalHistory") == Some(p.medicalHistory);
    assert TextField(m, "currentMeds") == Some(p.currentMeds);
    assert TextField(m, "allergies") == Some(p.allergies);
  }

  /** An empty `patientData` (the default `{}`) reads as the all-absent record. */
  lemma EmptyPatient()
    ensures PatientOf(JObj(map[])) == Some(Patient(None, None, None, None, None))
  {
  }
}
