/**
 * The placeholder manifest ids that ship as the defaults of the five
 * `manifest_id_*` settings, and their tie to the texts they are declared
 * with.
 */
module ManifestIds {
  import opened Wrappers
  import opened Uuid4

  // Each id as its five digit groups (8-4-4-4-12).
  const DevManifestId := Uuid([0xd, 0xc, 0xc, 0x4, 0xd, 0x2, 0x5, 0xf] + [0x3, 0xf, 0xb, 0x0]
                              + [0x4, 0xa, 0x6, 0x5] + [0x8, 0x4, 0xa, 0x7]
                              + [0xa, 0x0, 0x9, 0x1, 0x7, 0x8, 0xf, 0x1, 0xc, 0x8, 0x9, 0xd])
  const QaManifestId := Uuid([0x5, 0x2, 0xd, 0x6, 0x6, 0x2, 0x0, 0xd] + [0xf, 0x4, 0x4, 0x5]
                             + [0x4, 0x2, 0x8, 0xb] + [0xb, 0x7, 0xd, 0x8]
                             + [0xe, 0x4, 0xa, 0x6, 0xb, 0x4, 0x0, 0xd, 0x4, 0x6, 0x1, 0x4])
  const UatManifestId := Uuid([0x1, 0xa, 0x4, 0x2, 0x1, 0xe, 0x9, 0x5] + [0x5, 0x7, 0x6, 0xf]
                              + [0x4, 0xa, 0xb, 0x2] + [0x9, 0xb, 0xf, 0xc]
                              + [0xb, 0xb, 0x9, 0x7, 0x4, 0xd, 0x4, 0x3, 0xa, 0x3, 0xe, 0x1])
  const StagingManifestId := Uuid([0x9, 0x6, 0xe, 0xb, 0x6, 0x5, 0x7, 0xa] + [0xb, 0x8, 0xb, 0x4]
                                  + [0x4, 0x9, 0xa, 0x3] + [0x8, 0x3, 0xa, 0x1]
                                  + [0x5, 0xe, 0x5, 0x3, 0x5, 0x7, 0xf, 0x6, 0xd, 0x9, 0xe, 0x1])
  const ProdManifestId := Uuid([0x8, 0x1, 0x5, 0x1, 0x3, 0xa, 0x2, 0x7] + [0xf, 0x1, 0x7, 0xb]
                               + [0x4, 0xc, 0x2, 0xd] + [0xa, 0x5, 0xa, 0xe]
                               + [0x5, 0x8, 0x5, 0xa, 0x2, 0xb, 0x4, 0x8, 0xd, 0x7, 0x3, 0xc])

  /** The shipped placeholder ids are version-4 UUIDs. */
  lemma DefaultManifestIdsAreVersion4()
    ensures IsVersion4(DevManifestId) && IsVersion4(QaManifestId) && IsVersion4(UatManifestId)
    ensures IsVersion4(StagingManifestId) && IsVersion4(ProdManifestId)
  {
  }

  /** The canonical rendering of the `manifest_id_dev` default is its declared text, dcc4d25f-3fb0-4a65-84a7-a09178f1c89d. */
  lemma {:induction false} DevManifestIdRendering()
    ensures Format(DevManifestId) == "dcc4d25f" + "-" + "3fb0" + "-" + "4a65" + "-" + "84a7" + "-" + "a09178f1c89d"
  {
    FormatOfGroups([0xd, 0xc, 0xc, 0x4, 0xd, 0x2, 0x5, 0xf], [0x3, 0xf, 0xb, 0x0], [0x4, 0xa, 0x6, 0x5], [0x8, 0x4, 0xa, 0x7], [0xa, 0x0, 0x9, 0x1, 0x7, 0x8, 0xf, 0x1, 0xc, 0x8, 0x9, 0xd]);
    assert Hex([0xd, 0xc, 0xc, 0x4, 0xd, 0x2, 0x5, 0xf]) == "dcc4d25f";
    assert Hex([0x3, 0xf, 0xb, 0x0]) == "3fb0";
    assert Hex([0x4, 0xa, 0x6, 0x5]) == "4a65";
    assert Hex([0x8, 0x4, 0xa, 0x7]) == "84a7";
    assert Hex([0xa, 0x0, 0x9, 0x1, 0x7, 0x8, 0xf, 0x1, 0xc, 0x8, 0x9, 0xd]) == "a09178f1c89d";
  }

  /** The canonical rendering of the `manifest_id_qa` default is its declared text, 52d6620d-f445-428b-b7d8-e4a6b40d4614. */
  lemma {:induction false} QaManifestIdRendering()
    ensures Format(QaManifestId) == "52d6620d" + "-" + "f445" + "-" + "428b" + "-" + "b7d8" + "-" + "e4a6b40d4614"
  {
    FormatOfGroups([0x5, 0x2, 0xd, 0x6, 0x6, 0x2, 0x0, 0xd], [0xf, 0x4, 0x4, 0x5], [0x4, 0x2, 0x8, 0xb], [0xb, 0x7, 0xd, 0x8], [0xe, 0x4, 0xa, 0x6, 0xb, 0x4, 0x0, 0xd, 0x4, 0x6, 0x1, 0x4]);
    assert Hex([0x5, 0x2, 0xd, 0x6, 0x6, 0x2, 0x0, 0xd]) == "52d6620d";
    assert Hex([0xf, 0x4, 0x4, 0x5]) == "f445";
    assert Hex([0x4, 0x2, 0x8, 0xb]) == "428b";
    assert Hex([0xb, 0x7, 0xd, 0x8]) == "b7d8";
    assert Hex([0xe, 0x4, 0xa, 0x6, 0xb, 0x4, 0x0, 0xd, 0x4, 0x6, 0x1, 0x4]) == "e4a6b40d4614";
  }

  /** The canonical rendering of the `manifest_id_uat` default is its declared text, 1a421e95-576f-4ab2-9bfc-bb974d43a3e1. */
  lemma {:induction false} UatManifestIdRendering()
    ensures Format(UatManifestId) == "1a421e95" + "-" + "576f" + "-" + "4ab2" + "-" + "9bfc" + "-" + "bb974d43a3e1"
  {
    FormatOfGroups([0x1, 0xa, 0x4, 0x2, 0x1, 0xe, 0x9, 0x5], [0x5, 0x7, 0x6, 0xf], [0x4, 0xa, 0xb, 0x2], [0x9, 0xb, 0xf, 0xc], [0xb, 0xb, 0x9, 0x7, 0x4, 0xd, 0x4, 0x3, 0xa, 0x3, 0xe, 0x1]);
    assert Hex([0x1, 0xa, 0x4, 0x2, 0x1, 0xe, 0x9, 0x5]) == "1a421e95";
    assert Hex([0x5, 0x7, 0x6, 0xf]) == "576f";
    assert Hex([0x4, 0xa, 0xb, 0x2]) == "4ab2";
    assert Hex([0x9, 0xb, 0xf, 0xc]) == "9bfc";
    assert Hex([0xb, 0xb, 0x9, 0x7, 0x4, 0xd, 0x4, 0x3, 0xa, 0x3, 0xe, 0x1]) == "bb974d43a3e1";
  }

  /** The canonical rendering of the `manifest_id_staging` default is its declared text, 96eb657a-b8b4-49a3-83a1-5e5357f6d9e1. */
  lemma {:induction false} StagingManifestIdRendering()
    ensures Format(StagingManifestId) == "96eb657a" + "-" + "b8b4" + "-" + "49a3" + "-" + "83a1" + "-" + "5e5357f6d9e1"
  {
    FormatOfGroups([0x9, 0x6, 0xe, 0xb, 0x6, 0x5, 0x7, 0xa], [0xb, 0x8, 0xb, 0x4], [0x4, 0x9, 0xa, 0x3], [0x8, 0x3, 0xa, 0x1], [0x5, 0xe, 0x5, 0x3, 0x5, 0x7, 0xf, 0x6, 0xd, 0x9, 0xe, 0x1]);
    assert Hex([0x9, 0x6, 0xe, 0xb, 0x6, 0x5, 0x7, 0xa]) == "96eb657a";
    assert Hex([0xb, 0x8, 0xb, 0x4]) == "b8b4";
    assert Hex([0x4, 0x9, 0xa, 0x3]) == "49a3";
    assert Hex([0x8, 0x3, 0xa, 0x1]) == "83a1";
    assert Hex([0x5, 0xe, 0x5, 0x3, 0x5, 0x7, 0xf, 0x6, 0xd, 0x9, 0xe, 0x1]) == "5e5357f6d9e1";
  }

  /** The canonical rendering of the `manifest_id_prod` default is its declared text, 81513a27-f17b-4c2d-a5ae-585a2b48d73c. */
  lemma {:induction false} ProdManifestIdRendering()
    ensures Format(ProdManifestId) == "81513a27" + "-" + "f17b" + "-" + "4c2d" + "-" + "a5ae" + "-" + "585a2b48d73c"
  {
    FormatOfGroups([0x8, 0x1, 0x5, 0x1, 0x3, 0xa, 0x2, 0x7], [0xf, 0x1, 0x7, 0xb], [0x4, 0xc, 0x2, 0xd], [0xa, 0x5, 0xa, 0xe], [0x5, 0x8, 0x5, 0xa, 0x2, 0xb, 0x4, 0x8, 0xd, 0x7, 0x3, 0xc]);
    assert Hex([0x8, 0x1, 0x5, 0x1, 0x3, 0xa, 0x2, 0x7]) == "81513a27";
    assert Hex([0xf, 0x1, 0x7, 0xb]) == "f17b";
    assert Hex([0x4, 0xc, 0x2, 0xd]) == "4c2d";
    assert Hex([0xa, 0x5, 0xa, 0xe]) == "a5ae";
    assert Hex([0x5, 0x8, 0x5, 0xa, 0x2, 0xb, 0x4, 0x8, 0xd, 0x7, 0x3, 0xc]) == "585a2b48d73c";
  }

  /** A version-4 id is what validating its canonical rendering yields. */
  lemma {:induction false} RenderingDenotes(u: Uuid, t: string)
    requires IsVersion4(u) && Format(u) == t
    ensures ParseUuid4(t) == Some(u)
  {
    FormatThenParse(u);
  }

  /** Validating each declared text yields exactly the default id. */
  lemma {:induction false} DeclaredTextsDenoteDefaults()
    ensures ParseUuid4("dcc4d25f" + "-" + "3fb0" + "-" + "4a65" + "-" + "84a7" + "-" + "a09178f1c89d") == Some(DevManifestId)
    ensures ParseUuid4("52d6620d" + "-" + "f445" + "-" + "428b" + "-" + "b7d8" + "-" + "e4a6b40d4614") == Some(QaManifestId)
    ensures ParseUuid4("1a421e95" + "-" + "576f" + "-" + "4ab2" + "-" + "9bfc" + "-" + "bb974d43a3e1") == Some(UatManifestId)
    ensures ParseUuid4("96eb657a" + "-" + "b8b4" + "-" + "49a3" + "-" + "83a1" + "-" + "5e5357f6d9e1") == Some(StagingManifestId)
    ensures ParseUuid4("81513a27" + "-" + "f17b" + "-" + "4c2d" + "-" + "a5ae" + "-" + "585a2b48d73c") == Some(ProdManifestId)
  {
    DefaultManifestIdsAreVersion4();
    DevManifestIdRendering();
    RenderingDenotes(DevManifestId, "dcc4d25f" + "-" + "3fb0" + "-" + "4a65" + "-" + "84a7" + "-" + "a09178f1c89d");
    QaManifestIdRendering();
    RenderingDenotes(QaManifestId, "52d6620d" + "-" + "f445" + "-" + "428b" + "-" + "b7d8" + "-" + "e4a6b40d4614");
    UatManifestIdRendering();
    RenderingDenotes(UatManifestId, "1a421e95" + "-" + "576f" + "-" + "4ab2" + "-" + "9bfc" + "-" + "bb974d43a3e1");
    StagingManifestIdRendering();
    RenderingDenotes(StagingManifestId, "96eb657a" + "-" + "b8b4" + "-" + "49a3" + "-" + "83a1" + "-" + "5e5357f6d9e1");
    ProdManifestIdRendering();
    RenderingDenotes(ProdManifestId, "81513a27" + "-" + "f17b" + "-" + "4c2d" + "-" + "a5ae" + "-" + "585a2b48d73c");
  }
}
