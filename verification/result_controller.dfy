/** `webcam.controller.ResultController`: the result page. It copies the recognised
    attributes into the view model, pairs the subject with a celebrity photo of the
    opposite gender, and adds two random descriptions. `Random.nextInt` draws and
    Jackson's parse of `msg` are inputs. */
module ResultController {
  import opened Support
  import opened Json
  import opened Exceptions
  import opened MapUtil

  const RedirectView: string := "redirect:/index.html"
  const ResultView: string := "result"
  const ErrorPrefix: string := "处理结果数据时发生错误: "
  const FemaleDir: string := "female/"
  const MaleDir: string := "male/"
  const PngSuffix: string := ".png"
  const DetectedMale: string := "男性"

  /** The attributes `showResult` copies as text when the message has them. */
  const CopiedKeys: set<string> := {"img", "faceToken", "eyestatus", "smile", "gender", "age"}

  /** The three `random.nextInt` draws of one request: the photo number (bound 10), the
      `data_index` description (bound 3) and the `pdesc` description (bound 7). */
  datatype Draws = Draws(photo: nat, dataIndex: nat, description: nat)

  /** The subject counts as male: the user chose "male", or chose neither "male" nor
      "female" and Face++ detected 男性. */
  predicate SubjectIsMale(userGender: Option<string>, gender: string)
  {
    userGender == Some("male") || (userGender != Some("female") && gender == DetectedMale)
  }

  /** The `ppei` photo: numbered `n` in the pool of the opposite gender. */
  function Ppei(userGender: Option<string>, gender: string, n: int): (r: string)
    requires 1 <= n <= 10
    ensures StartsWith(r, FemaleDir) <==> SubjectIsMale(userGender, gender)
    ensures StartsWith(r, MaleDir) <==> !SubjectIsMale(userGender, gender)
    ensures EndsWith(r, IntToString(n) + PngSuffix)
  {
    var r := if userGender == Some("male") then FemaleDir + IntToString(n) + PngSuffix
             else if userGender == Some("female") then MaleDir + IntToString(n) + PngSuffix
             else if gender == DetectedMale then FemaleDir + IntToString(n) + PngSuffix
             else MaleDir + IntToString(n) + PngSuffix;
    assert r[0] == (if SubjectIsMale(userGender, gender) then 'f' else 'm');
    assert EndsWith(r, IntToString(n) + PngSuffix) by {
      assert r[|r| - |IntToString(n) + PngSuffix|..] == IntToString(n) + PngSuffix;
    }
    r
  }

  /** The user's own choice overrides what Face++ detected. */
  lemma ChoiceOverridesDetection(userGender: string, gender1: string, gender2: string, n: int)
    requires userGender == "male" || userGender == "female"
    requires 1 <= n <= 10
    ensures Ppei(Some(userGender), gender1, n) == Ppei(Some(userGender), gender2, n)
  {
  }

  /** Different draws give different photos in the same pool. */
  lemma PpeiDistinguishesDraws(userGender: Option<string>, gender: string, n1: int, n2: int)
    requires 1 <= n1 <= 10 && 1 <= n2 <= 10
    ensures Ppei(userGender, gender, n1) == Ppei(userGender, gender, n2) <==> n1 == n2
  {
    var r1, r2 := Ppei(userGender, gender, n1), Ppei(userGender, gender, n2);
    if r1 == r2 {
      var dir := if SubjectIsMale(userGender, gender) then FemaleDir else MaleDir;
      assert r1 == dir + IntToString(n1) + PngSuffix && r2 == dir + IntToString(n2) + PngSuffix;
      assert |IntToString(n1)| == |IntToString(n2)|;
      assert IntToString(n1) == r1[|dir|..|r1| - |PngSuffix|];
      assert IntToString(n2) == r2[|dir|..|r2| - |PngSuffix|];
      IntToStringInjective(n1, n2);
    }
  }

  /** `random.nextInt(bound) + 1`: a number in [1, bound]. */
  function Draw(draw: nat, bound: nat): (n: int)
    requires bound > 0
    ensures 1 <= n <= bound
  {
    NextInt(draw, bound) + 1
  }

  /** The view model of Spring MVC, as far as `addAttribute` goes. */
  class ViewModel {
    var attributes: map<string, string>

    constructor ()
      ensures attributes == map[]
    {
      attributes := map[];
    }

    /** `model.addAttribute(name, value)` */
    method AddAttribute(name: string, value: string)
      modifies this
      ensures attributes == old(attributes)[name := value]
    {
      attributes := attributes[name := value];
    }
  }

  /** `userGender` as `showResult` reads it: its text when the message has it, else null. */
  function UserGenderOf(root: Json): Option<string>
  {
    if Has(root, "userGender") then Some(AsText(root.fields["userGender"])) else None
  }

  /** The keys `showResult` adds for a parsed message. */
  function ShownKeys(root: Json): set<string>
  {
    (set k | k in CopiedKeys && Has(root, k)) + (if Has(root, "gender") then {"ppei"} else {}) + {"data_index", "pdesc"}
  }

  /** One copied attribute: its text when the message has it. */
  function CopyIf(shown: map<string, string>, root: Json, key: string): map<string, string>
  {
    if Has(root, key) then shown[key := AsText(root.fields[key])] else shown
  }

  /** The gender and its photo pairing, when the message has a gender. */
  function PairIf(shown: map<string, string>, root: Json, draws: Draws): map<string, string>
  {
    if Has(root, "gender") then
      var gender := AsText(root.fields["gender"]);
      shown["gender" := gender]["ppei" := Ppei(UserGenderOf(root), gender, Draw(draws.photo, 10))]
    else shown
  }

  /** The model after `showResult` has filled `base` from a parsed message, in the order
      it adds attributes. */
  function Shown(base: map<string, string>, root: Json, draws: Draws): map<string, string>
  {
    var copied := CopyIf(CopyIf(CopyIf(CopyIf(base, root, "img"), root, "faceToken"), root, "eyestatus"), root, "smile");
    var paired := CopyIf(PairIf(copied, root, draws), root, "age");
    paired["data_index" := PDesc(Draw(draws.dataIndex, 3))]["pdesc" := PDesc(Draw(draws.description, 7))]
  }

  /** `showResult` adds exactly the attributes the message has, the pairing when it has a
      gender, and the two descriptions; it removes nothing. */
  lemma ShownKeysAre(base: map<string, string>, root: Json, draws: Draws)
    ensures Shown(base, root, draws).Keys == base.Keys + ShownKeys(root)
  {
  }

  /** A later step keeps what an earlier one set under another key. */
  lemma CopyIfKeeps(shown: map<string, string>, root: Json, key: string, k: string)
    requires k in shown && k != key
    ensures k in CopyIf(shown, root, key) && CopyIf(shown, root, key)[k] == shown[k]
  {
  }

  lemma PairIfKeeps(shown: map<string, string>, root: Json, draws: Draws, k: string)
    requires k in shown && k != "gender" && k != "ppei"
    ensures k in PairIf(shown, root, draws) && PairIf(shown, root, draws)[k] == shown[k]
  {
  }

  /** Each attribute shown is the text of the message's own value. */
  lemma ShownCopies(base: map<string, string>, root: Json, draws: Draws, k: string)
    requires k in CopiedKeys && Has(root, k)
    ensures k in Shown(base, root, draws) && Shown(base, root, draws)[k] == AsText(root.fields[k])
  {
    var s1 := CopyIf(base, root, "img");
    var s2 := CopyIf(s1, root, "faceToken");
    var s3 := CopyIf(s2, root, "eyestatus");
    var s4 := CopyIf(s3, root, "smile");
    var s5 := PairIf(s4, root, draws);
    var s6 := CopyIf(s5, root, "age");
    assert Shown(base, root, draws) == s6["data_index" := PDesc(Draw(draws.dataIndex, 3))]["pdesc" := PDesc(Draw(draws.description, 7))];
    var v := AsText(root.fields[k]);
    if k == "age" {
      assert s6[k] == v;
    } else {
      if k == "gender" {
        assert s5[k] == v;
      } else {
        if k == "smile" {
          assert s4[k] == v;
        } else {
          if k == "eyestatus" {
            assert s3[k] == v;
          } else {
            if k == "faceToken" {
              assert s2[k] == v;
            } else {
              assert k == "img" && s1[k] == v;
              CopyIfKeeps(s1, root, "faceToken", k);
            }
            CopyIfKeeps(s2, root, "eyestatus", k);
          }
          CopyIfKeeps(s3, root, "smile", k);
        }
        PairIfKeeps(s4, root, draws, k);
      }
      CopyIfKeeps(s5, root, "age", k);
    }
    assert k != "data_index" && k != "pdesc";
  }

  /** The pairing follows the message's gender and the user's choice. */
  lemma ShownPairing(base: map<string, string>, root: Json, draws: Draws)
    requires Has(root, "gender")
    ensures "ppei" in Shown(base, root, draws)
    ensures Shown(base, root, draws)["ppei"] == Ppei(UserGenderOf(root), AsText(root.fields["gender"]), Draw(draws.photo, 10))
  {
  }

  /** Both descriptions are real descriptions, never the default text. */
  lemma ShownDescriptions(base: map<string, string>, root: Json, draws: Draws)
    ensures Shown(base, root, draws)["data_index"] == PDesc(Draw(draws.dataIndex, 3)) != MatchDefault
    ensures Shown(base, root, draws)["pdesc"] == PDesc(Draw(draws.description, 7)) != MatchDefault
  {
    PDescDefault(Draw(draws.dataIndex, 3));
    PDescDefault(Draw(draws.description, 7));
  }

  /** Every other entry of the model is left as it was. */
  lemma ShownKeepsOthers(base: map<string, string>, root: Json, draws: Draws, k: string)
    requires k in base && k !in ShownKeys(root)
    ensures k in Shown(base, root, draws) && Shown(base, root, draws)[k] == base[k]
  {
  }

  /** `showResult(msg, model)`: `msg` None is a missing parameter; a blank or unparsable
      message redirects to the start page without touching the model. */
  method ShowResult(msg: Option<Body>, model: ViewModel, draws: Draws) returns (view: string)
    modifies model
    ensures msg.None? || IsBlank(msg.value.text) || msg.value.parsed.Malformed? ==>
              view == RedirectView && model.attributes == old(model.attributes)
    ensures msg.Some? && !IsBlank(msg.value.text) && msg.value.parsed.Node? ==>
              view == ResultView && model.attributes == Shown(old(model.attributes), msg.value.parsed.root, draws)
  {
    if msg.None? || IsBlank(msg.value.text) {
      return RedirectView;
    }
    if msg.value.parsed.Malformed? {
      return RedirectView;
    }
    var jsonObject := msg.value.parsed.root;
    ghost var before := model.attributes;
    before := model.attributes;
    if Has(jsonObject, "img") {
      model.AddAttribute("img", AsText(jsonObject.fields["img"]));
    }
    assert model.attributes == CopyIf(before, jsonObject, "img");
    before := model.attributes;
    if Has(jsonObject, "faceToken") {
      model.AddAttribute("faceToken", AsText(jsonObject.fields["faceToken"]));
    }
    assert model.attributes == CopyIf(before, jsonObject, "faceToken");
    before := model.attributes;
    if Has(jsonObject, "eyestatus") {
      model.AddAttribute("eyestatus", AsText(jsonObject.fields["eyestatus"]));
    }
    assert model.attributes == CopyIf(before, jsonObject, "eyestatus");
    before := model.attributes;
    if Has(jsonObject, "smile") {
      model.AddAttribute("smile", AsText(jsonObject.fields["smile"]));
    }
    assert model.attributes == CopyIf(before, jsonObject, "smile");
    before := model.attributes;
    if Has(jsonObject, "gender") {
      var gender := AsText(jsonObject.fields["gender"]);
      model.AddAttribute("gender", gender);
      var userGender := if Has(jsonObject, "userGender") then Some(AsText(jsonObject.fields["userGender"])) else None;
      var randomNum := Draw(draws.photo, 10);
      model.AddAttribute("ppei", Ppei(userGender, gender, randomNum));
    }
    assert model.attributes == PairIf(before, jsonObject, draws);
    before := model.attributes;
    if Has(jsonObject, "age") {
      model.AddAttribute("age", AsText(jsonObject.fields["age"]));
    }
    assert model.attributes == CopyIf(before, jsonObject, "age");
    model.AddAttribute("data_index", PDesc(Draw(draws.dataIndex, 3)));
    model.AddAttribute("pdesc", PDesc(Draw(draws.description, 7)));
    return ResultView;
  }

  /** `map.get(key)` */
  function Lookup(m: map<string, Json>, key: string): (r: Option<Json>)
    ensures r.Some? <==> key in m
  {
    if key in m then Some(m[key]) else None
  }

  /** `(String) value`: null stays null, a string passes, anything else throws
      ClassCastException. */
  function CastToString(value: Option<Json>): (r: Result<Option<string>, Exception>)
    ensures r.Err? <==> value.Some? && !value.value.JNull? && !value.value.JStr?
    ensures r == Ok(None) <==> value.None? || value.value.JNull?
  {
    match value
    case None => Ok(None)
    case Some(JNull) => Ok(None)
    case Some(JStr(s)) => Ok(Some(s))
    case Some(_) => Err(Other(ClassCastMessage))
  }

  /** `getResultJson` stops at a cast: a gender that is not a string, or a gender with a
      user gender that is not a string. */
  predicate CastFails(resultData: map<string, Json>)
  {
    var gender := CastToString(Lookup(resultData, "gender"));
    gender.Err? || (gender.value.Some? && CastToString(Lookup(resultData, "userGender")).Err?)
  }

  /** The reply `getResultJson` builds from `resultData`. */
  function ResultJson(resultData: map<string, Json>, draws: Draws): map<string, Json>
  {
    var gender := CastToString(Lookup(resultData, "gender"));
    if gender.Err? then resultData["error" := JStr(ErrorPrefix + gender.error.message)]
    else
      var userGender := CastToString(Lookup(resultData, "userGender"));
      if gender.value.Some? && userGender.Err? then resultData["error" := JStr(ErrorPrefix + userGender.error.message)]
      else
        var paired := if gender.value.None? then resultData
                      else resultData["ppei" := JStr(Ppei(userGender.value, gender.value.value, Draw(draws.photo, 10)))];
        paired["data_index" := JStr(PDesc(Draw(draws.dataIndex, 3)))]["pdesc" := JStr(PDesc(Draw(draws.description, 7)))]
  }

  /** Every entry of the request body outside the four the reply may set is copied unchanged. */
  lemma ResultJsonKeepsBody(resultData: map<string, Json>, draws: Draws, k: string)
    requires k in resultData && k != "ppei" && k != "data_index" && k != "pdesc" && k != "error"
    ensures k in ResultJson(resultData, draws) && ResultJson(resultData, draws)[k] == resultData[k]
  {
  }

  /** A failed cast gives the body with an "error" entry naming the ClassCastException,
      and nothing else. */
  lemma ResultJsonOnCastFailure(resultData: map<string, Json>, draws: Draws)
    requires CastFails(resultData)
    ensures ResultJson(resultData, draws) == resultData["error" := JStr(ErrorPrefix + ClassCastMessage)]
  {
  }

  /** Otherwise the reply adds the two descriptions, never the default text, and the
      pairing exactly when the body has a string gender. */
  lemma ResultJsonOnSuccess(resultData: map<string, Json>, draws: Draws)
    requires !CastFails(resultData)
    ensures var gender := CastToString(Lookup(resultData, "gender")).value;
            ResultJson(resultData, draws).Keys ==
              resultData.Keys + {"data_index", "pdesc"} + (if gender.Some? then {"ppei"} else {})
    ensures ResultJson(resultData, draws)["data_index"] == JStr(PDesc(Draw(draws.dataIndex, 3))) != JStr(MatchDefault)
    ensures ResultJson(resultData, draws)["pdesc"] == JStr(PDesc(Draw(draws.description, 7))) != JStr(MatchDefault)
    ensures var gender := CastToString(Lookup(resultData, "gender")).value;
            gender.Some? ==>
              ResultJson(resultData, draws)["ppei"] ==
                JStr(Ppei(CastToString(Lookup(resultData, "userGender")).value, gender.value, Draw(draws.photo, 10)))
  {
    PDescDefault(Draw(draws.dataIndex, 3));
    PDescDefault(Draw(draws.description, 7));
  }

  /** `getResultJson(resultData)`: a copy of the request body plus the photo pairing and
      the two descriptions; a gender or user gender that is not a string stops it with an
      "error" entry after the copy. */
  method GetResultJson(resultData: map<string, Json>, draws: Draws) returns (response: map<string, Json>)
    ensures response == ResultJson(resultData, draws)
  {
    response := map[];
    response := response + resultData;
    assert response == resultData;
    var gender := CastToString(Lookup(resultData, "gender"));
    if gender.Err? {
      response := response["error" := JStr(ErrorPrefix + gender.error.message)];
      return;
    }
    if gender.value.Some? {
      var userGender := CastToString(Lookup(resultData, "userGender"));
      if userGender.Err? {
        response := response["error" := JStr(ErrorPrefix + userGender.error.message)];
        return;
      }
      var randomNum := Draw(draws.photo, 10);
      response := response["ppei" := JStr(Ppei(userGender.value, gender.value.value, randomNum))];
    }
    var dataIndex := Draw(draws.dataIndex, 3);
    var description := Draw(draws.description, 7);
    response := response["data_index" := JStr(PDesc(dataIndex))];
    response := response["pdesc" := JStr(PDesc(description))];
  }
}
