/** `webcam.config.CelebrityProperties`: the two fallback pools of celebrity photos,
    one per gender, filled by the constructor and replaceable by setters. */
module CelebrityConfig {
  import opened Support

  /** "/{dir}/{n}.png" */
  function PhotoPath(dir: string, n: nat): string
  {
    ("/" + dir) + ("/" + NatToString(n) + ".png")
  }

  /** The ten numbered photos of a pool directory, 1 to 10 in order. */
  function NumberedPhotos(dir: string): seq<string>
  {
    seq(10, k requires 0 <= k < 10 => PhotoPath(dir, k + 1))
  }

  class CelebrityProperties {
    /** `List<String> malePhotos`; null when a caller sets it so. */
    var malePhotos: Option<seq<string>>
    /** `List<String> femalePhotos` */
    var femalePhotos: Option<seq<string>>

    /** Both lists start empty and are then filled with the ten local photos each. */
    constructor ()
      ensures malePhotos == Some(NumberedPhotos("male"))
      ensures femalePhotos == Some(NumberedPhotos("female"))
    {
      malePhotos := Some([]);
      femalePhotos := Some([]);
      new;
      InitializeMalePhotos();
      InitializeFemalePhotos();
    }

    /** Appends "/male/1.png" .. "/male/10.png" to the (empty) male list. */
    method InitializeMalePhotos()
      requires malePhotos == Some([])
      modifies this`malePhotos
      ensures malePhotos == Some(NumberedPhotos("male"))
    {
      var list := malePhotos.value;
      list := list + ["/male/1.png"];
      list := list + ["/male/2.png"];
      list := list + ["/male/3.png"];
      list := list + ["/male/4.png"];
      list := list + ["/male/5.png"];
      list := list + ["/male/6.png"];
      list := list + ["/male/7.png"];
      list := list + ["/male/8.png"];
      list := list + ["/male/9.png"];
      list := list + ["/male/10.png"];
      assert list == ["/male/1.png", "/male/2.png", "/male/3.png", "/male/4.png", "/male/5.png", "/male/6.png", "/male/7.png", "/male/8.png", "/male/9.png", "/male/10.png"];
      malePhotos := Some(list);
      MalePhotosAre();
    }

    /** Appends "/female/1.png" .. "/female/10.png" to the (empty) female list. */
    method InitializeFemalePhotos()
      requires femalePhotos == Some([])
      modifies this`femalePhotos
      ensures femalePhotos == Some(NumberedPhotos("female"))
    {
      var list := femalePhotos.value;
      list := list + ["/female/1.png"];
      list := list + ["/female/2.png"];
      list := list + ["/female/3.png"];
      list := list + ["/female/4.png"];
      list := list + ["/female/5.png"];
      list := list + ["/female/6.png"];
      list := list + ["/female/7.png"];
      list := list + ["/female/8.png"];
      list := list + ["/female/9.png"];
      list := list + ["/female/10.png"];
      assert list == ["/female/1.png", "/female/2.png", "/female/3.png", "/female/4.png", "/female/5.png", "/female/6.png", "/female/7.png", "/female/8.png", "/female/9.png", "/female/10.png"];
      femalePhotos := Some(list);
      FemalePhotosAre();
    }

    /** `setMalePhotos`: replaces the male list wholesale. */
    method SetMalePhotos(photos: Option<seq<string>>)
      modifies this`malePhotos
      ensures malePhotos == photos
    {
      malePhotos := photos;
    }

    /** `setFemalePhotos`: replaces the female list wholesale. */
    method SetFemalePhotos(photos: Option<seq<string>>)
      modifies this`femalePhotos
      ensures femalePhotos == photos
    {
      femalePhotos := photos;
    }
  }

  /** The numbers 1 to 10 as `String.valueOf` prints them. */
  lemma SmallNumerals()
    ensures NatToString(1) == "1" && NatToString(2) == "2" && NatToString(3) == "3" && NatToString(4) == "4"
    ensures NatToString(5) == "5" && NatToString(6) == "6" && NatToString(7) == "7" && NatToString(8) == "8"
    ensures NatToString(9) == "9" && NatToString(10) == "10"
  {
    assert NatToString(10) == NatToString(1) + [DigitChar(0)];
  }

  /** A pool spelled out for any directory. */
  lemma NumberedPhotosSpelled(dir: string)
    ensures NumberedPhotos(dir) ==
              ["/" + dir + "/1.png", "/" + dir + "/2.png", "/" + dir + "/3.png", "/" + dir + "/4.png", "/" + dir + "/5.png",
               "/" + dir + "/6.png", "/" + dir + "/7.png", "/" + dir + "/8.png", "/" + dir + "/9.png", "/" + dir + "/10.png"]
  {
    SmallNumerals();
    var s := NumberedPhotos(dir);
    assert s[0] == ("/" + dir) + ("/" + NatToString(1) + ".png");
    assert "/" + NatToString(1) + ".png" == "/1.png";
    assert s[1] == ("/" + dir) + ("/" + NatToString(2) + ".png");
    assert "/" + NatToString(2) + ".png" == "/2.png";
    assert s[2] == ("/" + dir) + ("/" + NatToString(3) + ".png");
    assert "/" + NatToString(3) + ".png" == "/3.png";
    assert s[3] == ("/" + dir) + ("/" + NatToString(4) + ".png");
    assert "/" + NatToString(4) + ".png" == "/4.png";
    assert s[4] == ("/" + dir) + ("/" + NatToString(5) + ".png");
    assert "/" + NatToString(5) + ".png" == "/5.png";
    assert s[5] == ("/" + dir) + ("/" + NatToString(6) + ".png");
    assert "/" + NatToString(6) + ".png" == "/6.png";
    assert s[6] == ("/" + dir) + ("/" + NatToString(7) + ".png");
    assert "/" + NatToString(7) + ".png" == "/7.png";
    assert s[7] == ("/" + dir) + ("/" + NatToString(8) + ".png");
    assert "/" + NatToString(8) + ".png" == "/8.png";
    assert s[8] == ("/" + dir) + ("/" + NatToString(9) + ".png");
    assert "/" + NatToString(9) + ".png" == "/9.png";
    assert s[9] == ("/" + dir) + ("/" + NatToString(10) + ".png");
    assert "/" + NatToString(10) + ".png" == "/10.png";
  }

  /** The male pool spelled out. */
  lemma MalePhotosAre()
    ensures NumberedPhotos("male") == ["/male/1.png", "/male/2.png", "/male/3.png", "/male/4.png", "/male/5.png",
                                       "/male/6.png", "/male/7.png", "/male/8.png", "/male/9.png", "/male/10.png"]
  {
    NumberedPhotosSpelled("male");
    assert "/" + "male" == "/male";
    assert "/male" + "/1.png" == "/male/1.png";
    assert "/male" + "/2.png" == "/male/2.png";
    assert "/male" + "/3.png" == "/male/3.png";
    assert "/male" + "/4.png" == "/male/4.png";
    assert "/male" + "/5.png" == "/male/5.png";
    assert "/male" + "/6.png" == "/male/6.png";
    assert "/male" + "/7.png" == "/male/7.png";
    assert "/male" + "/8.png" == "/male/8.png";
    assert "/male" + "/9.png" == "/male/9.png";
    assert "/male" + "/10.png" == "/male/10.png";
  }

  /** The female pool spelled out. */
  lemma FemalePhotosAre()
    ensures NumberedPhotos("female") == ["/female/1.png", "/female/2.png", "/female/3.png", "/female/4.png", "/female/5.png",
                                         "/female/6.png", "/female/7.png", "/female/8.png", "/female/9.png", "/female/10.png"]
  {
    NumberedPhotosSpelled("female");
    assert "/" + "female" == "/female";
    assert "/female" + "/1.png" == "/female/1.png";
    assert "/female" + "/2.png" == "/female/2.png";
    assert "/female" + "/3.png" == "/female/3.png";
    assert "/female" + "/4.png" == "/female/4.png";
    assert "/female" + "/5.png" == "/female/5.png";
    assert "/female" + "/6.png" == "/female/6.png";
    assert "/female" + "/7.png" == "/female/7.png";
    assert "/female" + "/8.png" == "/female/8.png";
    assert "/female" + "/9.png" == "/female/9.png";
    assert "/female" + "/10.png" == "/female/10.png";
  }

  /** Every photo of a pool lies under that pool's directory. */
  lemma {:induction false} PhotoUnderDir(dir: string, k: nat)
    requires k < 10
    ensures StartsWith(NumberedPhotos(dir)[k], "/" + dir + "/")
  {
    var p := NumberedPhotos(dir)[k];
    assert p == ("/" + dir + "/") + (NatToString(k + 1) + ".png");
  }

  /** The default pools have ten entries each and no photo in both. */
  lemma DefaultPoolsDisjoint()
    ensures |NumberedPhotos("male")| == 10 && |NumberedPhotos("female")| == 10
    ensures forall p :: p in NumberedPhotos("male") ==> p !in NumberedPhotos("female")
  {
    forall p | p in NumberedPhotos("male") ensures |p| > 1 && p[1] == 'm' {
      var i :| 0 <= i < 10 && NumberedPhotos("male")[i] == p;
      PhotoUnderDir("male", i);
    }
    forall p | p in NumberedPhotos("female") ensures |p| > 1 && p[1] == 'f' {
      var i :| 0 <= i < 10 && NumberedPhotos("female")[i] == p;
      PhotoUnderDir("female", i);
    }
  }
}
