/** What the concrete model tables guarantee: SC-7's address map is well
  * formed, so every address the generator menu can build is looked up back to
  * its block and parameter; the SC-55/SC-155 and GS entries have no map; and
  * the three model ids tell the models apart. */
module RolandTables {
  import opened Wrappers
  import opened Bytes
  import opened SysExCommon
  import opened RolandTypes
  import opened RolandMaps
  import opened Roland
  import opened RolandMenu

  lemma SystemSuffixes()
    ensures |SC_7_PAM_SYSTEM| == 10 && forall k :: 0 <= k < 10 ==> SC_7_PAM_SYSTEM[k].0 == [k]
  {
  }

  lemma PatchSuffixes()
    ensures |SC_7_PAM_PATCH| == 8 && forall k :: 0 <= k < 8 ==> SC_7_PAM_PATCH[k].0 == [k]
  {
  }

  /** Block 0 is the system block at 00 00; block `b` > 0 is a patch block at
    * 01 `b - 1`, so Part 10 comes first, at 01 00. */
  lemma Sc7Blocks()
    ensures |SC_7_ABM| == 17
    ensures forall b :: 0 <= b < 17 ==> SC_7_ABM[b].0 == if b == 0 then [0, 0] else [1, b - 1]
    ensures SC_7_ABM[0].2 == SC_7_PAM_SYSTEM
    ensures forall b :: 1 <= b < 17 ==> SC_7_ABM[b].2 == SC_7_PAM_PATCH
  {
  }

  /** A two-byte prefix over the system or the patch map makes a well-formed
    * block of three-byte addresses. */
  lemma Sc7BlockWellFormed(prefix: seq<byte>, name: string, params: ParameterAddressMap)
    requires |prefix| == 2 && AllData(prefix)
    requires params == SC_7_PAM_SYSTEM || params == SC_7_PAM_PATCH
    ensures WellFormedBlock((prefix, name, params), 3)
  {
    SystemSuffixes();
    PatchSuffixes();
    forall k | 0 <= k < |params|
      ensures AllData(params[k].0) && |prefix| + |params[k].0| == 3 &&
              params[k].1.rangeStart <= params[k].1.rangeEnd < 0x80
    {
      assert params[k].0 == [k];
    }
  }

  /** SC-7 is well formed: model id 56h, default device 10h, three-byte
    * addresses, and 17 blocks with distinct two-byte prefixes. */
  lemma Sc7WellFormed()
    ensures SC_7.modelId == [0x56] && SC_7.defaultDeviceId == 0x10 && SC_7.addressSize == 3
    ensures WellFormedModel(SC_7)
  {
    Sc7Blocks();
    forall b | 0 <= b < |SC_7.blocks|
      ensures WellFormedBlock(SC_7.blocks[b], SC_7.addressSize)
    {
      var (prefix, name, params) := SC_7_ABM[b];
      Sc7BlockWellFormed(prefix, name, params);
    }
  }

  /** `MODELS` is well formed: SC-7 is, the other two have no blocks, and the
    * ids 56h, 45h and 42h are distinct single non-zero data bytes. */
  lemma ModelsWellFormed()
    ensures WellFormedModels(MODELS)
    ensures forall i :: 0 <= i < |MODELS| ==> |MODELS[i].modelId| == 1 && 0 < MODELS[i].modelId[0] < 0x80
  {
    Sc7WellFormed();
  }

  /** On SC-7, the address of any block's parameter is looked up back to that
    * block, with prefix size 2, and to that parameter. */
  lemma Sc7LookUp(b: nat, k: nat)
    requires b < |SC_7_ABM| && k < |SC_7_ABM[b].2|
    ensures LookUpParameter(SC_7, SC_7_ABM[b].0 + SC_7_ABM[b].2[k].0) ==
            (Some((SC_7_ABM[b].1, 2)), Some(SC_7_ABM[b].2[k].1))
  {
    Sc7WellFormed();
    Sc7Blocks();
    LookUpTableEntry(SC_7, b, k);
  }

  /** SC-55/SC-155 and GS have no address map: nothing is found at any
    * address, and a DT1 body of at least four bytes still parses, with no
    * block, no parameter and no size error. */
  lemma UnmappedModelsParse(model: ModelInfo, body: seq<byte>)
    requires model == SC_55 || model == GS
    requires |body| >= 4
    ensures ParseCommand(model, CM_ID_DT1, body) ==
            Some(DT1(body[..3], body[3..|body| - 1], ValidChecksum(body), None, None, false))
  {
    LookUpParameterMisses(model, body[..3]);
  }

  /** The model menu lists SC-7, SC-55/SC-155 and GS, and only SC-7's item is
    * enabled. */
  lemma ModelsMenuItems()
    ensures ItemsCount(MODELS, ModelsMenu) == 3
    ensures MODELS[0].name == "Roland SC-7" && MODELS[1].name == "Roland SC-55/SC-155" && MODELS[2].name == "Roland GS"
    ensures forall i :: 0 <= i < 3 ==> (ItemDisabled(MODELS, ModelsMenu, i) <==> i != 0)
  {
    Sc7Blocks();
  }

  /** `describe`'s requirements of the tables: every enumeration names each
    * value of its range once, in order, and every zero offset lies inside its
    * range. */
  predicate WellDescribed(p: Parameter) {
    !p.description.Other? &&
    (p.description.Enum? ==> EnumeratesRange(p)) &&
    (p.description.Numeric? ==> p.rangeStart <= p.description.zeroOffset <= p.rangeEnd)
  }

  /** Every SC-7 parameter is one byte and well described. */
  lemma Sc7Described()
    ensures forall k :: 0 <= k < |SC_7_PAM_SYSTEM| ==> SC_7_PAM_SYSTEM[k].1.size == 1 && WellDescribed(SC_7_PAM_SYSTEM[k].1)
    ensures forall k :: 0 <= k < |SC_7_PAM_PATCH| ==> SC_7_PAM_PATCH[k].1.size == 1 && WellDescribed(SC_7_PAM_PATCH[k].1)
  {
    SystemDescribed();
    PatchDescribed();
  }

  lemma SystemDescribed()
    ensures forall k :: 0 <= k < |SC_7_PAM_SYSTEM| ==> SC_7_PAM_SYSTEM[k].1.size == 1 && WellDescribed(SC_7_PAM_SYSTEM[k].1)
  {
    SystemSuffixes();
    ReverbEnumerates();
  }

  lemma PatchDescribed()
    ensures forall k :: 0 <= k < |SC_7_PAM_PATCH| ==> SC_7_PAM_PATCH[k].1.size == 1 && WellDescribed(SC_7_PAM_PATCH[k].1)
  {
    PatchSuffixes();
    RxChannelEnumerates();
  }

  lemma ReverbEnumerates()
    ensures EnumeratesRange(SC_7_PAM_SYSTEM[0].1)
  {
    var values := SC_7_PAM_SYSTEM[0].1.description.values;
    assert forall i :: 0 <= i < |values| ==> values[i].0 == [i];
  }

  lemma RxChannelEnumerates()
    ensures EnumeratesRange(SC_7_PAM_PATCH[0].1)
  {
    var values := SC_7_PAM_PATCH[0].1.description.values;
    assert forall i :: 0 <= i < |values| ==> values[i].0 == [i];
  }

  /** REVERB CHARACTER names each of 00h..07h, and RX. CHANNEL each of
    * 00h..10h, where 10h is "OFF". */
  lemma Sc7Enumerations()
    ensures SC_7_PAM_SYSTEM[0].1.name == "REVERB CHARACTER" && EnumeratesRange(SC_7_PAM_SYSTEM[0].1)
    ensures SC_7_PAM_SYSTEM[0].1.rangeStart == 0 && SC_7_PAM_SYSTEM[0].1.rangeEnd == 7
    ensures SC_7_PAM_PATCH[0].1.name == "RX. CHANNEL" && EnumeratesRange(SC_7_PAM_PATCH[0].1)
    ensures SC_7_PAM_PATCH[0].1.rangeStart == 0 && SC_7_PAM_PATCH[0].1.rangeEnd == 0x10
    ensures SC_7_PAM_PATCH[0].1.description.values[0x10].1 == "OFF"
  {
    Sc7Described();
  }
}
