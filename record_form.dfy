/** The activity list of the record form (`RecordForm`): adding a chosen
    exercise, updating one activity by id (a new intensity also picks the
    matching METs value), removing by id, and the check that refuses an empty
    record before `saveRecord` is called. Each handler builds a new list. */
module RecordForm {
  import opened Common
  import opened Documents

  const DefaultName: string := "名称不明"
  const LowIntensity: string := "低"
  const MidIntensity: string := "中"
  const HighIntensity: string := "高"
  const DefaultDuration: int := 30

  /** An exercise type from the selector; its METs values may be missing. */
  datatype ExerciseType = ExerciseType(name: Option<string>, low: Option<int>, mid: Option<int>, high: Option<int>)

  /** A loosely typed form field: a number, the text typed into an input,
      or nothing. */
  datatype FieldValue = NumberValue(n: int) | TextValue(s: string) | Missing

  /** One activity of the form; `kind` is the `type` field, which the form
      itself never sets. */
  datatype FormActivity = FormActivity(
    id: string, name: string, kind: Option<string>, intensity: string,
    duration: FieldValue, steps: FieldValue, mets: int, baseMets: Mets)

  /** The three edits the activity row sends to `handleUpdateActivity`. */
  datatype ActivityUpdate = SetIntensity(level: string) | SetDuration(text: string) | SetSteps(text: string)

  /** `act.baseMets[level === '低' ? 'low' : level === '高' ? 'high' : 'mid']`. */
  function MetsFor(b: Mets, level: string): (m: int)
    ensures level == LowIntensity ==> m == b.low
    ensures level == HighIntensity ==> m == b.high
    ensures level != LowIntensity && level != HighIntensity ==> m == b.mid
  {
    if level == LowIntensity then b.low else if level == HighIntensity then b.high else b.mid
  }

  /** An activity's METs value agrees with its intensity. */
  predicate MetsMatchIntensity(a: FormActivity) {
    a.mets == MetsFor(a.baseMets, a.intensity)
  }

  predicate AllMetsMatch(acts: seq<FormActivity>) {
    forall i :: 0 <= i < |acts| ==> MetsMatchIntensity(acts[i])
  }

  /** The activity `handleSelectExercise` creates; `id` is the clock value
      it is given. Missing METs values are 0, a falsy name is replaced. */
  function NewActivity(t: ExerciseType, id: string): (a: FormActivity)
    ensures a.id == id && a.intensity == MidIntensity && a.duration == NumberValue(DefaultDuration)
    ensures a.name == StrOr(t.name, DefaultName)
    ensures a.baseMets == Mets(NumOrElse(t.low, 0), NumOrElse(t.mid, 0), NumOrElse(t.high, 0))
    ensures MetsMatchIntensity(a)
  {
    var b := Mets(NumOrElse(t.low, 0), NumOrElse(t.mid, 0), NumOrElse(t.high, 0));
    FormActivity(id, StrOr(t.name, DefaultName), None, MidIntensity, NumberValue(DefaultDuration), Missing, b.mid, b)
  }

  /** `handleSelectExercise`: one new activity at the end, the others kept. */
  function SelectExercise(acts: seq<FormActivity>, t: ExerciseType, id: string): (r: seq<FormActivity>)
    ensures |r| == |acts| + 1 && r[..|acts|] == acts && r[|acts|] == NewActivity(t, id)
    ensures AllMetsMatch(acts) ==> AllMetsMatch(r)
  {
    acts + [NewActivity(t, id)]
  }

  /** One update applied to one activity: an intensity change also sets the
      METs value; any other update sets that one field. */
  function Applied(a: FormActivity, u: ActivityUpdate): (r: FormActivity)
    ensures r.id == a.id && r.name == a.name && r.kind == a.kind && r.baseMets == a.baseMets
    ensures u.SetIntensity? ==> r.intensity == u.level && r.mets == MetsFor(a.baseMets, u.level) &&
                                r.duration == a.duration && r.steps == a.steps
    ensures u.SetDuration? ==> r == a.(duration := TextValue(u.text))
    ensures u.SetSteps? ==> r == a.(steps := TextValue(u.text))
    ensures MetsMatchIntensity(a) || u.SetIntensity? ==> MetsMatchIntensity(r)
  {
    match u
    case SetIntensity(level) => a.(intensity := level, mets := MetsFor(a.baseMets, level))
    case SetDuration(text) => a.(duration := TextValue(text))
    case SetSteps(text) => a.(steps := TextValue(text))
  }

  /** `handleUpdateActivity`: every activity with the id is updated, the
      rest are untouched; length and order stay. */
  function UpdateActivity(acts: seq<FormActivity>, id: string, u: ActivityUpdate): (r: seq<FormActivity>)
    ensures |r| == |acts|
    ensures forall i :: 0 <= i < |acts| && acts[i].id != id ==> r[i] == acts[i]
    ensures forall i :: 0 <= i < |acts| && acts[i].id == id ==> r[i] == Applied(acts[i], u)
    ensures AllMetsMatch(acts) ==> AllMetsMatch(r)
  {
    seq(|acts|, i requires 0 <= i < |acts| => if acts[i].id == id then Applied(acts[i], u) else acts[i])
  }

  /** `handleRemoveActivity`: every activity with the id goes, the others
      stay in their order. */
  function RemoveActivity(acts: seq<FormActivity>, id: string): (r: seq<FormActivity>)
    ensures forall a :: a in r ==> a in acts && a.id != id
    ensures forall a :: a in acts && a.id != id ==> a in r
    ensures IsSubsequence(r, acts)
    ensures AllMetsMatch(acts) ==> AllMetsMatch(r)
  {
    if acts == [] then []
    else
      var rest := RemoveActivity(acts[1..], id);
      if acts[0].id == id then
        SubsequenceOfTail(rest, acts);
        rest
      else
        assert ([acts[0]] + rest)[1..] == rest;
        assert forall i :: 1 <= i < |[acts[0]] + rest| ==> ([acts[0]] + rest)[i] == rest[i - 1];
        [acts[0]] + rest
  }

  /** Removing keeps every other activity as often as it occurred, and no
      copy of one with the id. */
  lemma {:induction false} RemoveActivityCounts(acts: seq<FormActivity>, id: string, a: FormActivity)
    ensures a.id != id ==> multiset(RemoveActivity(acts, id))[a] == multiset(acts)[a]
    ensures a.id == id ==> multiset(RemoveActivity(acts, id))[a] == 0
  {
    if acts != [] {
      RemoveActivityCounts(acts[1..], id, a);
      assert acts == [acts[0]] + acts[1..];
      assert multiset(acts) == multiset{acts[0]} + multiset(acts[1..]);
      if acts[0].id != id {
        var rest := RemoveActivity(acts[1..], id);
        assert multiset([acts[0]] + rest) == multiset{acts[0]} + multiset(rest);
      }
    }
  }

  /** Removing an id that is not there changes nothing. */
  lemma {:induction false} RemoveAbsentId(acts: seq<FormActivity>, id: string)
    requires forall i :: 0 <= i < |acts| ==> acts[i].id != id
    ensures RemoveActivity(acts, id) == acts
  {
    if acts != [] {
      RemoveAbsentId(acts[1..], id);
      assert [acts[0]] + acts[1..] == acts;
    }
  }

  // ---------------------------------------------------------------------
  // Save validation
  // ---------------------------------------------------------------------

  /** The characters `String.prototype.trim` removes: white space and line
      terminators. */
  predicate IsWhitespace(c: char) {
    c == '\t' || c == '\n' || c == '\U{000B}' || c == '\U{000C}' || c == '\r' || c == ' ' ||
    c == '\U{00A0}' || c == '\U{1680}' || ('\U{2000}' <= c <= '\U{200A}') ||
    c == '\U{2028}' || c == '\U{2029}' || c == '\U{202F}' || c == '\U{205F}' ||
    c == '\U{3000}' || c == '\U{FEFF}'
  }

  function TrimStart(s: string): (r: string)
    ensures r == [] || !IsWhitespace(r[0])
    ensures |r| <= |s| && r == s[|s| - |r|..]
    ensures forall i :: 0 <= i < |s| - |r| ==> IsWhitespace(s[i])
  {
    if s != [] && IsWhitespace(s[0]) then TrimStart(s[1..]) else s
  }

  function TrimEnd(s: string): (r: string)
    ensures |r| <= |s| && r == s[..|r|]
    ensures r == [] || !IsWhitespace(r[|r| - 1])
    ensures forall i :: |r| <= i < |s| ==> IsWhitespace(s[i])
  {
    if s != [] && IsWhitespace(s[|s| - 1]) then TrimEnd(s[..|s| - 1]) else s
  }

  /** `s.trim()`: the part of `s` left after removing white space at both
      ends; it neither starts nor ends with white space. */
  function Trim(s: string): (r: string)
    ensures r == [] || (!IsWhitespace(r[0]) && !IsWhitespace(r[|r| - 1]))
    ensures var lo := |s| - |TrimStart(s)|;
            0 <= lo <= |s| - |r| && r == s[lo..lo + |r|] &&
            (forall i :: 0 <= i < lo ==> IsWhitespace(s[i])) &&
            (forall i :: lo + |r| <= i < |s| ==> IsWhitespace(s[i]))
  {
    TrimEndOfSuffix(s, TrimStart(s));
    TrimEnd(TrimStart(s))
  }

  /** Trimming the end of a suffix of `s` removes only characters of `s`
      that are white space. */
  lemma TrimEndOfSuffix(s: string, t: string)
    requires |t| <= |s| && t == s[|s| - |t|..]
    ensures var lo, r := |s| - |t|, TrimEnd(t);
            lo + |r| <= |s| && r == s[lo..lo + |r|] &&
            forall i :: lo + |r| <= i < |s| ==> IsWhitespace(s[i])
  {
    var lo, r := |s| - |t|, TrimEnd(t);
    forall i | lo + |r| <= i < |s|
      ensures IsWhitespace(s[i])
    {
      assert s[i] == t[i - lo];
    }
  }

  /** `!s.trim()` holds exactly when every character is white space. */
  lemma {:induction false} TrimEmptyIffBlank(s: string)
    ensures Trim(s) == "" <==> forall i :: 0 <= i < |s| ==> IsWhitespace(s[i])
  {
    TrimStartEmptyIffBlank(s);
    var t := TrimStart(s);
    if t != [] {
      assert TrimEnd(t) != [] by {
        assert !IsWhitespace(t[0]);
        TrimEndKeepsNonBlankHead(t);
      }
    }
  }

  lemma {:induction false} TrimStartEmptyIffBlank(s: string)
    ensures TrimStart(s) == "" <==> forall i :: 0 <= i < |s| ==> IsWhitespace(s[i])
  {
    if s != [] && IsWhitespace(s[0]) {
      TrimStartEmptyIffBlank(s[1..]);
      assert forall i :: 1 <= i < |s| ==> s[i] == s[1..][i - 1];
    }
  }

  lemma {:induction false} TrimEndKeepsNonBlankHead(t: string)
    requires t != [] && !IsWhitespace(t[0])
    ensures TrimEnd(t) != []
  {
    if IsWhitespace(t[|t| - 1]) {
      TrimEndKeepsNonBlankHead(t[..|t| - 1]);
    }
  }

  /** The form's state as `handleSave` hands it to `saveRecord`. */
  datatype FormData = FormData(activities: seq<FormActivity>, weight: string, comment: string,
                               imageUris: seq<string>, postToTimeline: bool)

  /** The record is empty: no activity, a blank comment, no image and no
      weight. */
  predicate IsEmptyRecord(f: FormData) {
    |f.activities| == 0 && Trim(f.comment) == "" && |f.imageUris| == 0 && f.weight == ""
  }

  /** `handleSave`: `saveRecord` is called with the form's data, unless the
      record is empty (then an alert is shown and nothing is saved). */
  function HandleSave(f: FormData): (r: Option<FormData>)
    ensures r.None? <==> |f.activities| == 0 && |f.imageUris| == 0 && f.weight == "" &&
                         forall i :: 0 <= i < |f.comment| ==> IsWhitespace(f.comment[i])
    ensures r.Some? ==> r.value == f
  {
    TrimEmptyIffBlank(f.comment);
    if IsEmptyRecord(f) then None else Some(f)
  }
}
