/** `webcam.service.FaceRecognitionServiceImpl`: reads a Face++ detection reply into the
    attribute map the controllers pass on (face token, glasses label, smile label, gender
    label, age). The HTTP call itself is an oracle. */
module FaceRecognition {
  import opened Support
  import opened Json
  import opened Exceptions
  import opened MapUtil

  const ParseFailedMessage: string := "解析API响应失败"
  const DetectFailedMessage: string := "人脸检测失败"

  /** The attribute keys the parser may write. */
  const AttributeKeys: set<string> := {"faceToken", "eyestatus", "smile", "gender", "age"}

  /** The six readings kept per eye: the suffix of the key it is stored under, and the
      Face++ field it is read from. */
  const EyeFields: seq<(string, string)> := [
    ("NormalOpen", "normal_glass_eye_open"),
    ("NoClose", "no_glass_eye_close"),
    ("Occlusion", "occlusion"),
    ("NoOpen", "no_glass_eye_open"),
    ("NormalClose", "normal_glass_eye_close"),
    ("Dark", "dark_glasses")
  ]

  /** Every one of the six readings is present (reading a missing one dereferences null). */
  predicate HasAllReadings(eye: Json)
  {
    forall i :: 0 <= i < |EyeFields| ==> Has(eye, EyeFields[i].1)
  }

  /** The six keys an eye's readings are stored under. */
  function EyeKeys(prefix: string): set<string>
  {
    set i | 0 <= i < |EyeFields| :: prefix + EyeFields[i].0
  }

  /** The six readings and their keys, written out. */
  lemma EyeFieldsListed(prefix: string, eye: Json)
    ensures HasAllReadings(eye) <==>
              Has(eye, "normal_glass_eye_open") && Has(eye, "no_glass_eye_close") && Has(eye, "occlusion") &&
              Has(eye, "no_glass_eye_open") && Has(eye, "normal_glass_eye_close") && Has(eye, "dark_glasses")
    ensures EyeKeys(prefix) == {prefix + "NormalOpen", prefix + "NoClose", prefix + "Occlusion",
                                prefix + "NoOpen", prefix + "NormalClose", prefix + "Dark"}
  {
    var keys := EyeKeys(prefix);
    assert prefix + EyeFields[0].0 in keys && prefix + EyeFields[1].0 in keys && prefix + EyeFields[2].0 in keys;
    assert prefix + EyeFields[3].0 in keys && prefix + EyeFields[4].0 in keys && prefix + EyeFields[5].0 in keys;
    forall x | x in keys
      ensures x in {prefix + "NormalOpen", prefix + "NoClose", prefix + "Occlusion",
                    prefix + "NoOpen", prefix + "NormalClose", prefix + "Dark"}
    {
      var i :| 0 <= i < |EyeFields| && x == prefix + EyeFields[i].0;
    }
  }

  /** An eye's six readings under their prefixed keys. */
  function EyeReadings(prefix: string, eye: Json): map<string, real>
    requires HasAllReadings(eye)
  {
    EyeFieldsListed(prefix, eye);
    map[prefix + "NormalOpen" := AsReal(eye.fields["normal_glass_eye_open"]),
        prefix + "NoClose" := AsReal(eye.fields["no_glass_eye_close"]),
        prefix + "Occlusion" := AsReal(eye.fields["occlusion"]),
        prefix + "NoOpen" := AsReal(eye.fields["no_glass_eye_open"]),
        prefix + "NormalClose" := AsReal(eye.fields["normal_glass_eye_close"]),
        prefix + "Dark" := AsReal(eye.fields["dark_glasses"])]
  }

  /** An eye's readings have exactly the six prefixed keys, each holding the value of
      its Face++ field. */
  lemma EyeReadingsAre(prefix: string, eye: Json)
    requires HasAllReadings(eye)
    ensures EyeReadings(prefix, eye).Keys == EyeKeys(prefix)
    ensures forall i :: 0 <= i < |EyeFields| ==> EyeReadings(prefix, eye)[prefix + EyeFields[i].0] == AsReal(eye.fields[EyeFields[i].1])
  {
    EyeFieldsListed(prefix, eye);
    var m := EyeReadings(prefix, eye);
    forall i | 0 <= i < |EyeFields|
      ensures m[prefix + EyeFields[i].0] == AsReal(eye.fields[EyeFields[i].1])
    {
      var suffix := EyeFields[i].0;
      assert i == 0 || i == 1 || i == 2 || i == 3 || i == 4 || i == 5;
      if i == 0 {
      } else if i == 1 {
        assert prefix + suffix != prefix + "Dark" && prefix + suffix != prefix + "NormalClose" by {
          assert (prefix + suffix)[|prefix|] == 'N';
          assert (prefix + suffix)[|prefix| + 1] == 'o';
          assert (prefix + suffix)[|prefix| + 2] == 'C';
          assert (prefix + "NormalClose")[|prefix| + 2] == 'r';
        }
        assert prefix + suffix != prefix + "NoOpen" && prefix + suffix != prefix + "Occlusion" by {
          assert (prefix + suffix)[|prefix|] == 'N';
          assert (prefix + suffix)[|prefix| + 2] == 'C';
          assert (prefix + "NoOpen")[|prefix| + 2] == 'O';
          assert (prefix + "Occlusion")[|prefix|] == 'O';
        }
      } else if i == 2 {
        assert prefix + suffix != prefix + "Dark" && prefix + suffix != prefix + "NormalClose" && prefix + suffix != prefix + "NoOpen" by {
          assert (prefix + suffix)[|prefix|] == 'O';
          assert (prefix + "Dark")[|prefix|] == 'D';
          assert (prefix + "NormalClose")[|prefix|] == 'N';
          assert (prefix + "NoOpen")[|prefix|] == 'N';
        }
      } else if i == 3 {
        assert prefix + suffix != prefix + "Dark" && prefix + suffix != prefix + "NormalClose" by {
          assert (prefix + suffix)[|prefix|] == 'N';
          assert (prefix + suffix)[|prefix| + 2] == 'O';
          assert (prefix + "Dark")[|prefix|] == 'D';
          assert (prefix + "NormalClose")[|prefix| + 2] == 'r';
        }
      } else if i == 4 {
        assert prefix + suffix != prefix + "Dark" by {
          assert (prefix + suffix)[|prefix|] == 'N';
          assert (prefix + "Dark")[|prefix|] == 'D';
        }
      }
    }
  }

  /** One eye's block of `extractEyeStatus`: six puts, each of a reading that must exist. */
  method PutEyeReadings(prefix: string, eye: Json, eyeStatusMap: map<string, real>) returns (r: Option<map<string, real>>)
    ensures r.Some? <==> HasAllReadings(eye)
    ensures r.Some? ==> r.value == eyeStatusMap + EyeReadings(prefix, eye)
  {
    EyeFieldsListed(prefix, eye);
    var m := eyeStatusMap;
    var normalOpen := Get(eye, "normal_glass_eye_open");
    if normalOpen.None? { return None; }
    m := m[prefix + "NormalOpen" := AsReal(normalOpen.value)];
    var noClose := Get(eye, "no_glass_eye_close");
    if noClose.None? { return None; }
    m := m[prefix + "NoClose" := AsReal(noClose.value)];
    var occlusion := Get(eye, "occlusion");
    if occlusion.None? { return None; }
    m := m[prefix + "Occlusion" := AsReal(occlusion.value)];
    var noOpen := Get(eye, "no_glass_eye_open");
    if noOpen.None? { return None; }
    m := m[prefix + "NoOpen" := AsReal(noOpen.value)];
    var normalClose := Get(eye, "normal_glass_eye_close");
    if normalClose.None? { return None; }
    m := m[prefix + "NormalClose" := AsReal(normalClose.value)];
    var dark := Get(eye, "dark_glasses");
    if dark.None? { return None; }
    m := m[prefix + "Dark" := AsReal(dark.value)];
    return Some(m);
  }

  /** The eyes present under `eyestatus`. */
  function LeftEye(eyestatus: Json): Option<Json> { Get(eyestatus, "left_eye_status") }
  function RightEye(eyestatus: Json): Option<Json> { Get(eyestatus, "right_eye_status") }

  /** `extractEyeStatus` reads every eye present completely. */
  predicate EyeStatusReadable(eyestatus: Json)
  {
    (LeftEye(eyestatus).None? || HasAllReadings(LeftEye(eyestatus).value)) &&
    (RightEye(eyestatus).None? || HasAllReadings(RightEye(eyestatus).value))
  }

  /** `m` is the map `extractEyeStatus` builds: six keys per eye present, nothing for an
      absent eye, each holding its reading. */
  predicate EyeStatusMap(eyestatus: Json, m: map<string, real>)
  {
    var left, right := LeftEye(eyestatus), RightEye(eyestatus);
    m.Keys == (if left.Some? then EyeKeys("left") else {}) + (if right.Some? then EyeKeys("right") else {}) &&
    (left.Some? ==>
       HasAllReadings(left.value) &&
       forall i :: 0 <= i < |EyeFields| ==> m["left" + EyeFields[i].0] == AsReal(left.value.fields[EyeFields[i].1])) &&
    (right.Some? ==>
       HasAllReadings(right.value) &&
       forall i :: 0 <= i < |EyeFields| ==> m["right" + EyeFields[i].0] == AsReal(right.value.fields[EyeFields[i].1]))
  }

  /** The left and right keys never collide. */
  lemma EyeKeysDisjoint()
    ensures EyeKeys("left") !! EyeKeys("right")
  {
    forall x | x in EyeKeys("left") ensures x[0] == 'l' {
      var i :| 0 <= i < |EyeFields| && x == "left" + EyeFields[i].0;
    }
    forall x | x in EyeKeys("right") ensures x[0] == 'r' {
      var i :| 0 <= i < |EyeFields| && x == "right" + EyeFields[i].0;
    }
  }

  /** At most one map fits the description, so the description is the map. */
  lemma EyeStatusMapUnique(eyestatus: Json, m1: map<string, real>, m2: map<string, real>)
    requires EyeStatusMap(eyestatus, m1) && EyeStatusMap(eyestatus, m2)
    ensures m1 == m2
  {
    forall k | k in m1 ensures m1[k] == m2[k] {
      if LeftEye(eyestatus).Some? && k in EyeKeys("left") {
        var i :| 0 <= i < |EyeFields| && k == "left" + EyeFields[i].0;
      } else {
        var i :| 0 <= i < |EyeFields| && k == "right" + EyeFields[i].0;
      }
    }
  }

  /** The map `extractEyeStatus` builds from a readable node: the left eye's readings and
      then the right eye's, for each eye present. */
  function EyeStatusMapOf(eyestatus: Json): map<string, real>
    requires EyeStatusReadable(eyestatus)
  {
    var left := if LeftEye(eyestatus).Some? then EyeReadings("left", LeftEye(eyestatus).value) else map[];
    var right := if RightEye(eyestatus).Some? then EyeReadings("right", RightEye(eyestatus).value) else map[];
    left + right
  }

  /** The map built is the one the description fits, and the only one. */
  lemma EyeStatusMapIsTheMap(eyestatus: Json, m: map<string, real>)
    requires EyeStatusReadable(eyestatus)
    ensures EyeStatusMap(eyestatus, m) <==> m == EyeStatusMapOf(eyestatus)
  {
    var built := EyeStatusMapOf(eyestatus);
    EyeKeysDisjoint();
    var left, right := LeftEye(eyestatus), RightEye(eyestatus);
    if left.Some? {
      EyeReadingsAre("left", left.value);
    }
    if right.Some? {
      EyeReadingsAre("right", right.value);
    }
    assert EyeStatusMap(eyestatus, built) by {
      if left.Some? {
        forall i | 0 <= i < |EyeFields|
          ensures built["left" + EyeFields[i].0] == AsReal(left.value.fields[EyeFields[i].1])
        {
          assert "left" + EyeFields[i].0 in EyeKeys("left");
        }
      }
    }
    if EyeStatusMap(eyestatus, m) {
      EyeStatusMapUnique(eyestatus, m, built);
    }
  }

  /** `extractEyeStatus(eyestatus)`: None where reading a missing value dereferences null. */
  method ExtractEyeStatus(eyestatus: Json) returns (r: Option<map<string, real>>)
    ensures r.Some? <==> EyeStatusReadable(eyestatus)
    ensures r.Some? ==> r.value == EyeStatusMapOf(eyestatus)
  {
    var eyeStatusMap: map<string, real> := map[];
    var leftEye := LeftEye(eyestatus);
    var rightEye := RightEye(eyestatus);
    if leftEye.Some? {
      var filled := PutEyeReadings("left", leftEye.value, eyeStatusMap);
      if filled.None? {
        return None;
      }
      eyeStatusMap := filled.value;
      assert eyeStatusMap == EyeReadings("left", leftEye.value);
    }
    if rightEye.Some? {
      var filled := PutEyeReadings("right", rightEye.value, eyeStatusMap);
      if filled.None? {
        return None;
      }
      eyeStatusMap := filled.value;
    }
    return Some(eyeStatusMap);
  }

  /** `smile.value` against `smile.threshold`; None where either is missing. */
  function SmileLabel(smile: Json): Option<string>
  {
    if Has(smile, "value") && Has(smile, "threshold")
    then Some(Smiling(AsReal(smile.fields["value"]), AsReal(smile.fields["threshold"])))
    else None
  }

  /** `gender.value` as a label; None where it is missing. */
  function GenderLabel(gender: Json): Option<string>
  {
    if Has(gender, "value") then Some(GenderIntended(Some(AsText(gender.fields["value"])))) else None
  }

  /** `age.value` as an int; None where it is missing. */
  function AgeValue(age: Json): Option<int>
  {
    if Has(age, "value") then Some(AsInt(age.fields["value"])) else None
  }

  /** `parseEyeStatus(attributes, resultData)`: puts the glasses label when the node exists. */
  method ParseEyeStatus(attributes: Json, resultData: map<string, Json>) returns (r: Option<map<string, Json>>)
    ensures !Has(attributes, "eyestatus") ==> r == Some(resultData)
    ensures Has(attributes, "eyestatus") ==>
              (r.Some? <==> EyeStatusReadable(attributes.fields["eyestatus"])) &&
              (r.Some? ==> r.value == resultData["eyestatus" := JStr(Glass(Some(EyeStatusMapOf(attributes.fields["eyestatus"]))))])
  {
    var eyestatus := Get(attributes, "eyestatus");
    if eyestatus.None? {
      return Some(resultData);
    }
    var eyeStatusMap := ExtractEyeStatus(eyestatus.value);
    if eyeStatusMap.None? {
      return None;
    }
    return Some(resultData["eyestatus" := JStr(Glass(eyeStatusMap))]);
  }

  /** `parseSmile(attributes, resultData)`: puts the smile label when the node exists. */
  method ParseSmile(attributes: Json, resultData: map<string, Json>) returns (r: Option<map<string, Json>>)
    ensures !Has(attributes, "smile") ==> r == Some(resultData)
    ensures Has(attributes, "smile") ==>
              (r.Some? <==> SmileLabel(attributes.fields["smile"]).Some?) &&
              (r.Some? ==> r.value == resultData["smile" := JStr(SmileLabel(attributes.fields["smile"]).value)])
  {
    var smile := Get(attributes, "smile");
    if smile.None? {
      return Some(resultData);
    }
    var value := Get(smile.value, "value");
    var threshold := Get(smile.value, "threshold");
    if value.None? || threshold.None? {
      return None;
    }
    return Some(resultData["smile" := JStr(Smiling(AsReal(value.value), AsReal(threshold.value)))]);
  }

  /** `parseGender(attributes, resultData)`: puts the gender label when the node exists. */
  method ParseGender(attributes: Json, resultData: map<string, Json>) returns (r: Option<map<string, Json>>)
    ensures !Has(attributes, "gender") ==> r == Some(resultData)
    ensures Has(attributes, "gender") ==>
              (r.Some? <==> GenderLabel(attributes.fields["gender"]).Some?) &&
              (r.Some? ==> r.value == resultData["gender" := JStr(GenderLabel(attributes.fields["gender"]).value)])
  {
    var gender := Get(attributes, "gender");
    if gender.None? {
      return Some(resultData);
    }
    var value := Get(gender.value, "value");
    if value.None? {
      return None;
    }
    return Some(resultData["gender" := JStr(GenderIntended(Some(AsText(value.value))))]);
  }

  /** `parseAge(attributes, resultData)`: puts the age when the node exists. */
  method ParseAge(attributes: Json, resultData: map<string, Json>) returns (r: Option<map<string, Json>>)
    ensures !Has(attributes, "age") ==> r == Some(resultData)
    ensures Has(attributes, "age") ==>
              (r.Some? <==> AgeValue(attributes.fields["age"]).Some?) &&
              (r.Some? ==> r.value == resultData["age" := IntNode(AgeValue(attributes.fields["age"]).value)])
  {
    var age := Get(attributes, "age");
    if age.None? {
      return Some(resultData);
    }
    var value := Get(age.value, "value");
    if value.None? {
      return None;
    }
    return Some(resultData["age" := IntNode(AsInt(value.value))]);
  }

  /** `faces[0]` when `faces` is a non-empty array. */
  function FirstFace(root: Json): Option<Json>
  {
    if Has(root, "faces") && IsNonEmptyArray(root.fields["faces"]) then Some(root.fields["faces"].items[0]) else None
  }

  /** The `attributes` node of the first face, if any. */
  function FaceAttributes(root: Json): Option<Json>
  {
    if FirstFace(root).Some? then Get(FirstFace(root).value, "attributes") else None
  }

  /** Each attribute node present holds what its parser reads. */
  predicate AttributesReadable(attributes: Json)
  {
    (Has(attributes, "eyestatus") ==> EyeStatusReadable(attributes.fields["eyestatus"])) &&
    (Has(attributes, "smile") ==> SmileLabel(attributes.fields["smile"]).Some?) &&
    (Has(attributes, "gender") ==> GenderLabel(attributes.fields["gender"]).Some?) &&
    (Has(attributes, "age") ==> AgeValue(attributes.fields["age"]).Some?)
  }

  /** Parsing dereferences nothing missing: the first face (if any) has a token, and each
      attribute node present holds what its parser reads. */
  predicate Readable(root: Json)
  {
    FirstFace(root).Some? ==>
      Has(FirstFace(root).value, "face_token") &&
      (FaceAttributes(root).Some? ==> AttributesReadable(FaceAttributes(root).value))
  }

  /** The `eyestatus` entry: present iff the node is, holding the glasses label of the
      eye map the node describes. */
  predicate EyeEntry(attributes: Json, m: map<string, Json>)
  {
    ("eyestatus" in m <==> Has(attributes, "eyestatus")) &&
    ("eyestatus" in m ==> EyeStatusReadable(attributes.fields["eyestatus"]) &&
                          m["eyestatus"] == JStr(Glass(Some(EyeStatusMapOf(attributes.fields["eyestatus"])))))
  }

  /** The `smile` entry: present iff the node is, holding its smile label. */
  predicate SmileEntry(attributes: Json, m: map<string, Json>)
  {
    ("smile" in m <==> Has(attributes, "smile")) &&
    ("smile" in m ==> SmileLabel(attributes.fields["smile"]).Some? && m["smile"] == JStr(SmileLabel(attributes.fields["smile"]).value))
  }

  /** The `gender` entry: present iff the node is, holding its gender label. */
  predicate GenderEntry(attributes: Json, m: map<string, Json>)
  {
    ("gender" in m <==> Has(attributes, "gender")) &&
    ("gender" in m ==> GenderLabel(attributes.fields["gender"]).Some? && m["gender"] == JStr(GenderLabel(attributes.fields["gender"]).value))
  }

  /** The `age` entry: present iff the node is, holding its integer value. */
  predicate AgeEntry(attributes: Json, m: map<string, Json>)
  {
    ("age" in m <==> Has(attributes, "age")) &&
    ("age" in m ==> AgeValue(attributes.fields["age"]).Some? && m["age"] == IntNode(AgeValue(attributes.fields["age"]).value))
  }

  /** `m` is what `parseApiResponse` returns for a reply: empty without a face; else the
      first face's token, and one entry per attribute node present, holding the label the
      attribute maps to. */
  predicate Describes(root: Json, m: map<string, Json>)
  {
    m.Keys <= AttributeKeys &&
    (FirstFace(root).None? ==> m == map[]) &&
    (FirstFace(root).Some? ==>
       Has(FirstFace(root).value, "face_token") &&
       "faceToken" in m && m["faceToken"] == JStr(AsText(FirstFace(root).value.fields["face_token"])) &&
       (FaceAttributes(root).None? ==> m.Keys == {"faceToken"}) &&
       (FaceAttributes(root).Some? ==>
          var attributes := FaceAttributes(root).value;
          EyeEntry(attributes, m) && SmileEntry(attributes, m) && GenderEntry(attributes, m) && AgeEntry(attributes, m)))
  }

  /** Two maps with the same face token and the same attribute entries are equal. */
  lemma EntriesDetermineMap(attributes: Json, m1: map<string, Json>, m2: map<string, Json>)
    requires m1.Keys <= AttributeKeys && m2.Keys <= AttributeKeys
    requires "faceToken" in m1 && "faceToken" in m2 && m1["faceToken"] == m2["faceToken"]
    requires EyeEntry(attributes, m1) && SmileEntry(attributes, m1) && GenderEntry(attributes, m1) && AgeEntry(attributes, m1)
    requires EyeEntry(attributes, m2) && SmileEntry(attributes, m2) && GenderEntry(attributes, m2) && AgeEntry(attributes, m2)
    ensures m1 == m2
  {
    forall k | k in m1 ensures k in m2 && m1[k] == m2[k] {
      assert k in AttributeKeys;
    }
    forall k | k in m2 ensures k in m1 {
      assert k in AttributeKeys;
    }
  }

  /** The description determines the map: two maps it fits are equal. */
  lemma DescribesUnique(root: Json, m1: map<string, Json>, m2: map<string, Json>)
    requires Describes(root, m1) && Describes(root, m2)
    ensures m1 == m2
  {
    if FirstFace(root).Some? && FaceAttributes(root).Some? {
      EntriesDetermineMap(FaceAttributes(root).value, m1, m2);
    }
  }

  /** What the four attribute parsers add to a map, in order: an entry for each attribute
      node present. */
  function AddAttributes(attributes: Json, m: map<string, Json>): map<string, Json>
    requires AttributesReadable(attributes)
  {
    var withEyes := if Has(attributes, "eyestatus")
                    then m["eyestatus" := JStr(Glass(Some(EyeStatusMapOf(attributes.fields["eyestatus"]))))] else m;
    var withSmile := if Has(attributes, "smile")
                     then withEyes["smile" := JStr(SmileLabel(attributes.fields["smile"]).value)] else withEyes;
    var withGender := if Has(attributes, "gender")
                      then withSmile["gender" := JStr(GenderLabel(attributes.fields["gender"]).value)] else withSmile;
    if Has(attributes, "age") then withGender["age" := IntNode(AgeValue(attributes.fields["age"]).value)] else withGender
  }

  /** Added to the map holding only the face token, the attributes give one entry per node
      present, each holding its label, and keep the token. */
  lemma AddAttributesDescribes(attributes: Json, m: map<string, Json>)
    requires AttributesReadable(attributes) && m.Keys == {"faceToken"}
    ensures AddAttributes(attributes, m).Keys <= AttributeKeys
    ensures "faceToken" in AddAttributes(attributes, m) && AddAttributes(attributes, m)["faceToken"] == m["faceToken"]
    ensures EyeEntry(attributes, AddAttributes(attributes, m)) && SmileEntry(attributes, AddAttributes(attributes, m))
    ensures GenderEntry(attributes, AddAttributes(attributes, m)) && AgeEntry(attributes, AddAttributes(attributes, m))
  {
  }

  /** The four attribute parsers of `parseApiResponse`, run in order: each adds its own
      entry, and any missing value stops the parse. */
  method ParseAttributes(attributes: Json, resultData: map<string, Json>) returns (r: Option<map<string, Json>>)
    ensures r.Some? <==> AttributesReadable(attributes)
    ensures r.Some? ==> r.value == AddAttributes(attributes, resultData)
  {
    var step := ParseEyeStatus(attributes, resultData);
    if step.None? {
      return None;
    }
    step := ParseSmile(attributes, step.value);
    if step.None? {
      return None;
    }
    step := ParseGender(attributes, step.value);
    if step.None? {
      return None;
    }
    step := ParseAge(attributes, step.value);
    if step.None? {
      return None;
    }
    return step;
  }

  /** `parseApiResponse(apiResponse)`: any failure to parse or to read a required value
      is a FacePlusPlusApiException with the parse-failure message. */
  method ParseApiResponse(parsed: Parsed) returns (r: Result<map<string, Json>, Exception>)
    ensures r.Err? ==> r.error == FacePlusPlusApi(ParseFailedMessage)
    ensures r.Ok? <==> parsed.Node? && Readable(parsed.root)
    ensures r.Ok? ==> Describes(parsed.root, r.value)
  {
    if parsed.Malformed? {
      return Err(FacePlusPlusApi(ParseFailedMessage));
    }
    var apiJson := parsed.root;
    var resultData: map<string, Json> := map[];
    var facesArray := Get(apiJson, "faces");
    if facesArray.Some? && IsNonEmptyArray(facesArray.value) {
      var firstFace := facesArray.value.items[0];
      var faceToken := Get(firstFace, "face_token");
      if faceToken.None? {
        return Err(FacePlusPlusApi(ParseFailedMessage));
      }
      resultData := resultData["faceToken" := JStr(AsText(faceToken.value))];
      var attributes := Get(firstFace, "attributes");
      if attributes.Some? {
        var parsedAttributes := ParseAttributes(attributes.value, resultData);
        if parsedAttributes.None? {
          return Err(FacePlusPlusApi(ParseFailedMessage));
        }
        AddAttributesDescribes(attributes.value, resultData);
        resultData := parsedAttributes.value;
      }
    }
    return Ok(resultData);
  }

  /** What `callFacePlusPlusAPI` gets back: the response body (possibly null), or the
      message of what the exchange threw. */
  datatype FaceReply = Answered(body: Option<Body>) | CallThrew(message: string)

  /** `detectFaceAttributes(imagePath)`: calls Face++ and parses the reply; every failure,
      from the call or from parsing, becomes FacePlusPlusApiException("人脸检测失败"). */
  method DetectFaceAttributes(call: string -> FaceReply, imagePath: string) returns (r: Result<map<string, Json>, Exception>)
    ensures r.Err? ==> r.error == FacePlusPlusApi(DetectFailedMessage)
    ensures r.Ok? <==> call(imagePath).Answered? && call(imagePath).body.Some? &&
                       call(imagePath).body.value.parsed.Node? && Readable(call(imagePath).body.value.parsed.root)
    ensures r.Ok? ==> Describes(call(imagePath).body.value.parsed.root, r.value)
  {
    var reply := call(imagePath);
    if reply.CallThrew? || reply.body.None? {
      return Err(FacePlusPlusApi(DetectFailedMessage));
    }
    var parsed := ParseApiResponse(reply.body.value.parsed);
    if parsed.Err? {
      return Err(FacePlusPlusApi(DetectFailedMessage));
    }
    return parsed;
  }
}
