/** `webcam.MapUtil`: turning Face++ attribute values into the Chinese labels shown on
    the result page. */
module MapUtil {
  import opened Support

  // ---------------------------------------------------------------- glasses

  const Unrecognised: string := "无法识别"
  const DarkGlasses: string := "带墨镜"
  const GlassesOpen: string := "带普通眼镜并且睁眼"
  const GlassesClosed: string := "带普通眼镜并且闭眼"
  const NoGlassesOpen: string := "不带眼镜并且睁眼"
  const NoGlassesClosed: string := "不带眼镜并且闭眼"
  const Occluded: string := "眼镜前面有遮挡物"

  /** The confidence (in percent) at which a label is believed. */
  const ConfidenceThreshold: real := 90.0

  /** `hasHighConfidence(eye, key)`: the value under `key`, or 0 when it is missing,
      is at least 90. */
  predicate HasHighConfidence(eye: map<string, real>, key: string)
    ensures key !in eye ==> !HasHighConfidence(eye, key)
    ensures HasHighConfidence(eye, key) ==> eye[key] >= ConfidenceThreshold
  {
    (if key in eye then eye[key] else 0.0) >= ConfidenceThreshold
  }

  /** `glass(eye)`: the first label, in a fixed priority, that either eye shows with
      high confidence. A null or empty map is unrecognised. */
  function Glass(eye: Option<map<string, real>>): (r: string)
    ensures eye.None? || |eye.value| == 0 ==> r == Unrecognised
    ensures r in {Unrecognised, DarkGlasses, GlassesOpen, GlassesClosed, NoGlassesOpen, NoGlassesClosed, Occluded}
  {
    if eye.None? || |eye.value| == 0 then Unrecognised
    else
      var e := eye.value;
      if HasHighConfidence(e, "leftDark") || HasHighConfidence(e, "rightDark") then DarkGlasses
      else if HasHighConfidence(e, "leftNormalOpen") || HasHighConfidence(e, "rightNormalOpen") then GlassesOpen
      else if HasHighConfidence(e, "leftNormalClose") || HasHighConfidence(e, "rightNormalClose") then GlassesClosed
      else if HasHighConfidence(e, "leftNoOpen") || HasHighConfidence(e, "rightNoOpen") then NoGlassesOpen
      else if HasHighConfidence(e, "leftNoClose") || HasHighConfidence(e, "rightNoClose") then NoGlassesClosed
      else if HasHighConfidence(e, "leftOcclusion") || HasHighConfidence(e, "rightOcclusion") then Occluded
      else Unrecognised
  }

  /** One rung of the glasses ladder: the left-eye key, the right-eye key and the label. */
  datatype Rung = Rung(left: string, right: string, text: string)

  /** The ladder, highest priority first. */
  const Ladder: seq<Rung> := [
    Rung("leftDark", "rightDark", DarkGlasses),
    Rung("leftNormalOpen", "rightNormalOpen", GlassesOpen),
    Rung("leftNormalClose", "rightNormalClose", GlassesClosed),
    Rung("leftNoOpen", "rightNoOpen", NoGlassesOpen),
    Rung("leftNoClose", "rightNoClose", NoGlassesClosed),
    Rung("leftOcclusion", "rightOcclusion", Occluded)
  ]

  predicate Qualifies(eye: map<string, real>, rung: Rung)
  {
    HasHighConfidence(eye, rung.left) || HasHighConfidence(eye, rung.right)
  }

  /** The reference reading of a ladder: the label of the first rung that qualifies. */
  function FirstQualifying(eye: map<string, real>, rungs: seq<Rung>): string
  {
    if rungs == [] then Unrecognised
    else if Qualifies(eye, rungs[0]) then rungs[0].text
    else FirstQualifying(eye, rungs[1..])
  }

  /** The labels of a ladder are pairwise different and none is the "unrecognised" text. */
  predicate DistinctLabels(rungs: seq<Rung>)
  {
    (forall i :: 0 <= i < |rungs| ==> rungs[i].text != Unrecognised) &&
    (forall i, j :: 0 <= i < j < |rungs| ==> rungs[i].text != rungs[j].text)
  }

  /** The winning rung of a ladder: `i` is the first rung that qualifies, or the
      length of the ladder when none does. */
  lemma {:induction false} Winner(eye: map<string, real>, rungs: seq<Rung>) returns (i: nat)
    ensures i <= |rungs| && forall j :: 0 <= j < i ==> !Qualifies(eye, rungs[j])
    ensures i < |rungs| ==> Qualifies(eye, rungs[i]) && FirstQualifying(eye, rungs) == rungs[i].text
    ensures i == |rungs| ==> FirstQualifying(eye, rungs) == Unrecognised
  {
    if rungs == [] {
      i := 0;
    } else if Qualifies(eye, rungs[0]) {
      i := 0;
    } else {
      var w := Winner(eye, rungs[1..]);
      i := w + 1;
      forall j | 0 < j < i ensures rungs[j] == rungs[1..][j - 1] { }
    }
  }

  /** On a ladder with distinct labels, rung `k` wins exactly when it qualifies and no
      earlier rung does. */
  lemma FirstQualifyingIsRung(eye: map<string, real>, rungs: seq<Rung>, k: nat)
    requires DistinctLabels(rungs) && k < |rungs|
    ensures FirstQualifying(eye, rungs) == rungs[k].text <==>
              Qualifies(eye, rungs[k]) && forall j :: 0 <= j < k ==> !Qualifies(eye, rungs[j])
  {
    var i := Winner(eye, rungs);
    if i < k {
      assert rungs[i].text != rungs[k].text;
    } else if k < i < |rungs| {
      assert rungs[k].text != rungs[i].text;
    }
  }

  /** No rung wins exactly when no rung qualifies. */
  lemma FirstQualifyingNone(eye: map<string, real>, rungs: seq<Rung>)
    requires DistinctLabels(rungs)
    ensures FirstQualifying(eye, rungs) == Unrecognised <==> forall j :: 0 <= j < |rungs| ==> !Qualifies(eye, rungs[j])
  {
    var i := Winner(eye, rungs);
    if i < |rungs| {
      assert rungs[i].text != Unrecognised;
    }
  }

  /** `glass` reads the ladder: on a non-empty map its answer is the first qualifying rung. */
  lemma GlassFollowsLadder(eye: map<string, real>)
    ensures Glass(Some(eye)) == if |eye| == 0 then Unrecognised else FirstQualifying(eye, Ladder)
  {
    var l := Ladder;
    assert l[5..][1..] == [];
    assert FirstQualifying(eye, l[5..]) == if Qualifies(eye, l[5]) then Occluded else Unrecognised;
    assert l[4..][1..] == l[5..];
    assert FirstQualifying(eye, l[4..]) == if Qualifies(eye, l[4]) then NoGlassesClosed else FirstQualifying(eye, l[5..]);
    assert l[3..][1..] == l[4..];
    assert FirstQualifying(eye, l[3..]) == if Qualifies(eye, l[3]) then NoGlassesOpen else FirstQualifying(eye, l[4..]);
    assert l[2..][1..] == l[3..];
    assert FirstQualifying(eye, l[2..]) == if Qualifies(eye, l[2]) then GlassesClosed else FirstQualifying(eye, l[3..]);
    assert l[1..][1..] == l[2..];
    assert FirstQualifying(eye, l[1..]) == if Qualifies(eye, l[1]) then GlassesOpen else FirstQualifying(eye, l[2..]);
  }

  /** The glasses label is rung `k` of the ladder exactly when that rung qualifies and
      no higher-priority rung does; it is "unrecognised" exactly when the map is null,
      empty, or no rung qualifies. */
  lemma GlassPriority(eye: map<string, real>, k: nat)
    requires |eye| > 0 && k < |Ladder|
    ensures Glass(Some(eye)) == Ladder[k].text <==>
              Qualifies(eye, Ladder[k]) && forall j :: 0 <= j < k ==> !Qualifies(eye, Ladder[j])
    ensures Glass(Some(eye)) == Unrecognised <==> forall j :: 0 <= j < |Ladder| ==> !Qualifies(eye, Ladder[j])
  {
    GlassFollowsLadder(eye);
    FirstQualifyingIsRung(eye, Ladder, k);
    FirstQualifyingNone(eye, Ladder);
  }

  // ---------------------------------------------------------------- smile

  const BigSmile: string := "笑的灿烂"
  const Smile: string := "微笑"
  const NoSmile: string := "不笑"

  /** `smiling(value, threshold)`: three bands, split at the threshold and 30 above it. */
  function Smiling(value: real, threshold: real): (r: string)
    ensures r == BigSmile || r == Smile || r == NoSmile
    ensures r == NoSmile <==> value <= threshold
  {
    if value > threshold + 30.0 then BigSmile
    else if value > threshold then Smile
    else NoSmile
  }

  /** How much of a smile a label says: 0, 1 or 2. */
  function SmileRank(s: string): nat
  {
    if s == BigSmile then 2 else if s == Smile then 1 else 0
  }

  /** The bands: above threshold + 30 is a big smile, (threshold, threshold + 30] a smile,
      and at or below the threshold (the threshold itself included) no smile; a larger
      value never gives a smaller smile. */
  lemma SmilingBands(value: real, other: real, threshold: real)
    ensures Smiling(value, threshold) == BigSmile <==> value > threshold + 30.0
    ensures Smiling(value, threshold) == Smile <==> threshold < value <= threshold + 30.0
    ensures Smiling(value, threshold) == NoSmile <==> value <= threshold
    ensures value <= other ==> SmileRank(Smiling(value, threshold)) <= SmileRank(Smiling(other, threshold))
  {
  }

  // ---------------------------------------------------------------- gender

  const Male: string := "男性"
  const Female: string := "女性"
  const UnknownGender: string := "未知"

  /** `gender(value)` as written: the lowercased value is checked for "male" or "男"
      before "female" or "女". */
  function Gender(value: Option<string>): (r: string)
    ensures value.None? ==> r == UnknownGender
    ensures value.Some? && (Contains(ToLower(value.value), "male") || Contains(ToLower(value.value), "男")) ==> r == Male
  {
    if value.None? then UnknownGender
    else
      var lower := ToLower(value.value);
      if Contains(lower, "male") || Contains(lower, "男") then Male
      else if Contains(lower, "female") || Contains(lower, "女") then Female
      else UnknownGender
  }

  /** "female" contains "male", so as written no value that mentions "female" is ever
      classified female: "Female" gives 男性. */
  lemma GenderAsWrittenMisreadsFemale(value: string)
    requires Contains(ToLower(value), "female")
    ensures Gender(Some(value)) == Male
  {
    assert "female"[2..2 + |"male"|] == "male";
    ContainsAt("female", "male", 2);
    ContainsTransitive(ToLower(value), "female", "male");
  }

  /** The counterexample: Face++ reports "Female" for a woman, and the label is 男性. */
  lemma GenderFemaleCounterexample()
    ensures Gender(Some("Female")) == Male
  {
    assert ToLower("Female") == "female";
    assert "female"[..|"female"|] == "female";
    GenderAsWrittenMisreadsFemale("Female");
  }

  /** `gender(value)` as intended: "female" or "女" is checked first, so the female
      words win over the "male" inside "female". */
  function GenderIntended(value: Option<string>): (r: string)
    ensures value.None? ==> r == UnknownGender
    ensures value.Some? && Contains(ToLower(value.value), "female") ==> r == Female
  {
    if value.None? then UnknownGender
    else
      var lower := ToLower(value.value);
      if Contains(lower, "female") || Contains(lower, "女") then Female
      else if Contains(lower, "male") || Contains(lower, "男") then Male
      else UnknownGender
  }

  /** The intended mapping gives 女性 for "Female" in any letter case and for "女性". */
  lemma GenderIntendedFemale()
    ensures GenderIntended(Some("Female")) == Female
    ensures GenderIntended(Some("FEMALE")) == Female
    ensures GenderIntended(Some("女性")) == Female
  {
    assert ToLower("Female") == "female" && ToLower("FEMALE") == "female";
    assert "female"[..|"female"|] == "female";
    assert ToLower("女性") == "女性";
    assert "女性"[..|"女"|] == "女";
  }

  /** The intended mapping gives 男性 for "Male" in any letter case and for "男性". */
  lemma GenderIntendedMale()
    ensures GenderIntended(Some("Male")) == Male
    ensures GenderIntended(Some("MALE")) == Male
    ensures GenderIntended(Some("男性")) == Male
  {
    assert ToLower("Male") == "male" && ToLower("MALE") == "male";
    ContainsNeedsRoom("male", "female");
    NotContainsChar("male", '女');
    assert "male"[..|"male"|] == "male";
    assert ToLower("男性") == "男性";
    ContainsNeedsRoom("男性", "female");
    NotContainsChar("男性", '女');
    assert "男性"[..|"男"|] == "男";
  }

  // ---------------------------------------------------------------- match texts

  const MatchDefault: string := "匹配成功！"

  // Each text is written as its first two characters and the rest, which keeps
  // comparisons between them cheap for the verifier.
  const Desc1: string := "不会" + "有震天动地狂风暴雨般的恋情，每每是细水长流，有如磁铁般精密符合的满分组合。跟你一样，非常珍视完全拥有对方。为了储备与家庭快乐，你们两人可取得相互和谐，你的俏丽与可敬，使摩羯放心。相互对恋爱的忠诚度划一，使你们的爱情出息宏大。可从你身上发明温柔与俏皮的一壁，而你也能认同摩羯的真诚与可靠"
  const Desc2: string := "寻求" + "单纯爱情的你，与TA乐于办事他人的天性极为得当。信守双方的约定，使你放心不己。但是，你也必须克制出现孩子般的嫉妨心与占据欲。若能以成熟人的面貌与之来往的话，干系将会一帆风顺"
  const Desc3: string := "很看" + "重宁静感，也有储备的风俗。不会方便暴露真情。若到了可以信任的地步，你将是他唯一值得流露心事的人。同时也向往像你这种范例的人。一旦来往下去，要是没有非常紧张的问题，可望步入完婚礼堂"
  const Desc4: string := "很容" + "易孕育产生共鸣共振的以为，遇到TA时，将会使你们的热度一下子升到最高点，是一见钟情式、康健开朗的组合，高兴永世存在。你们两个在一起的话，更像两个玩疯的小孩，不但会利用周遭的事物来玩的痛快，你们的互动干系也像是一出无比浮夸的戏剧"
  const Desc5: string := "两人" + "的意见、观念、行为都大致相同，也很容易产生共鸣；火相星座两只白羊一旦来电，就会很速度的浓烈的发展，因为TA热情如火，只要是喜欢对方就会奋不顾身。还有，您们的爱恋像清咖一样浓"
  const SharedMatchText: string := "在初" + "次见面的时候，十成八九都会产生剧烈的火花，像磁铁一样互相吸引、一见钟情的指数很高噢，同时外向的性格让你们的恋情发展速度迅猛。两人的性格都较为接近，所以在一起绝对是天生一对，恩爱羡煞旁人"

  /** `pDesc(index)`: a match description for 1..7, with 6 and 7 sharing one text. */
  function PDesc(index: int): (r: string)
    ensures r != []
    ensures index < 1 || 7 < index ==> r == MatchDefault
  {
    match index
    case 1 => Desc1
    case 2 => Desc2
    case 3 => Desc3
    case 4 => Desc4
    case 5 => Desc5
    case 6 => SharedMatchText
    case 7 => SharedMatchText
    case _ => MatchDefault
  }

  /** Indexes 1..7 never give the default text, and every other index gives it. */
  lemma PDescDefault(i: int)
    ensures 1 <= i <= 7 <==> PDesc(i) != MatchDefault
  {
    if 1 <= i <= 7 {
      assert PDesc(i)[0] != MatchDefault[0];
    }
  }

  /** Two indexes in 1..7 give the same text exactly when they are equal or both are 6 or 7. */
  lemma PDescDistinct(i: int, j: int)
    requires 1 <= i <= 7 && 1 <= j <= 7
    ensures PDesc(i) == PDesc(j) <==> i == j || (i >= 6 && j >= 6)
  {
    if i != j && !(i >= 6 && j >= 6) {
      assert PDesc(i)[..2] != PDesc(j)[..2];
    }
  }
}
