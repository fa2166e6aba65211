/** The cardio guide of the web front end: the treadmill preset looked up by priority,
    the equipment keys shown treadmill first, and the tip chosen by goal. */
module CardioGuide {
  import Text
  import opened Seqs
  import opened Plan
  import opened Wrappers

  /** One equipment preset: the settings for beginners, intermediates and the advanced,
      and a tip. */
  datatype Preset = Preset(beginner: string, intermediate: string, advanced: string, tip: string)

  /** The planner's per-equipment dictionary: its keys in insertion order and the preset
      stored under each. */
  datatype EquipmentTable = EquipmentTable(keys: seq<string>, presets: map<string, Preset>)

  /** A dictionary's keys are distinct and are exactly the keys of its entries. */
  predicate WellFormed(t: EquipmentTable)
  {
    && (forall i, j :: 0 <= i < j < |t.keys| ==> t.keys[i] != t.keys[j])
    && (forall i :: 0 <= i < |t.keys| ==> t.keys[i] in t.presets)
    && (forall k :: k in t.presets ==> k in t.keys)
  }

  /** `cardio.get('기구별_상세설정', {})`: a missing entry reads as an empty dictionary. */
  function EquipmentDetails(entry: Option<EquipmentTable>): (t: EquipmentTable)
    ensures WellFormed(t) <==> entry.None? || WellFormed(entry.value)
    ensures entry.Some? ==> t == entry.value
  {
    if entry.Some? then entry.value else EquipmentTable([], map[])
  }

  /** The keys tried for the treadmill preset, in order. */
  const TreadmillPriority: seq<string> := ["트레드밀 (런닝머신)", "트레드밀", "트레드밀 인터벌"]

  /** The first key of the priority list that the dictionary holds, with its preset. */
  function TreadmillInfo(t: EquipmentTable): (r: Option<Preset>)
    ensures r.None? <==> forall i :: 0 <= i < |TreadmillPriority| ==> TreadmillPriority[i] !in t.presets
    ensures r.Some? ==> exists i :: 0 <= i < |TreadmillPriority| && TreadmillPriority[i] in t.presets
                                    && r.value == t.presets[TreadmillPriority[i]]
                                    && forall j :: 0 <= j < i ==> TreadmillPriority[j] !in t.presets
  {
    assert TreadmillPriority[0] == "트레드밀 (런닝머신)";
    assert TreadmillPriority[1] == "트레드밀";
    assert TreadmillPriority[2] == "트레드밀 인터벌";
    if "트레드밀 (런닝머신)" in t.presets then Some(t.presets["트레드밀 (런닝머신)"])
    else if "트레드밀" in t.presets then Some(t.presets["트레드밀"])
    else if "트레드밀 인터벌" in t.presets then Some(t.presets["트레드밀 인터벌"])
    else None
  }

  /** The intensity line of the summary box: the treadmill preset's intermediate setting
      when there is one, the general intensity text otherwise. */
  function SummaryIntensity(t: EquipmentTable, intensity: string): (s: string)
    ensures (forall i :: 0 <= i < |TreadmillPriority| ==> TreadmillPriority[i] !in t.presets) ==> s == intensity
    ensures (exists i :: 0 <= i < |TreadmillPriority| && TreadmillPriority[i] in t.presets) ==>
              exists i :: 0 <= i < |TreadmillPriority| && TreadmillPriority[i] in t.presets
                          && s == t.presets[TreadmillPriority[i]].intermediate
                          && forall j :: 0 <= j < i ==> TreadmillPriority[j] !in t.presets
  {
    match TreadmillInfo(t)
    case Some(preset) => preset.intermediate
    case None => intensity
  }

  /** `'트레드밀' in key or '런닝머신' in key`. */
  predicate IsTreadmillKey(k: string)
  {
    Text.Contains(k, "트레드밀") || Text.Contains(k, "런닝머신")
  }

  /** `treadmill_keys`: the treadmill keys, in dictionary order. */
  function TreadmillKeys(keys: seq<string>): seq<string>
  {
    Filter(IsTreadmillKey, keys)
  }

  /** `other_keys`: the keys not in `treadmill_keys`, in dictionary order. */
  function OtherKeys(keys: seq<string>): seq<string>
  {
    var treadmill := TreadmillKeys(keys);
    Filter((k: string) => k !in treadmill, keys)
  }

  /** Testing membership in `treadmill_keys` is the same as testing the key itself. */
  lemma OtherKeysAreNotTreadmill(keys: seq<string>)
    ensures OtherKeys(keys) == Filter((k: string) => !IsTreadmillKey(k), keys)
  {
    var treadmill := TreadmillKeys(keys);
    forall i | 0 <= i < |keys| ensures (keys[i] !in treadmill) == !IsTreadmillKey(keys[i]) {
      FilterMembers(IsTreadmillKey, keys, keys[i]);
    }
    FilterCongruent((k: string) => k !in treadmill, (k: string) => !IsTreadmillKey(k), keys);
  }

  /** The two lists split the keys: every key is in exactly one of them, each as often as
      in the dictionary, and each list keeps the dictionary's order. */
  lemma KeyPartition(keys: seq<string>)
    ensures multiset(TreadmillKeys(keys)) + multiset(OtherKeys(keys)) == multiset(keys)
    ensures forall k :: k in TreadmillKeys(keys) <==> k in keys && IsTreadmillKey(k)
    ensures forall k :: k in OtherKeys(keys) <==> k in keys && !IsTreadmillKey(k)
    ensures IsSubsequence(TreadmillKeys(keys), keys) && IsSubsequence(OtherKeys(keys), keys)
  {
    var notTreadmill := (k: string) => !IsTreadmillKey(k);
    OtherKeysAreNotTreadmill(keys);
    FilterPartition(IsTreadmillKey, notTreadmill, keys);
    forall k ensures k in TreadmillKeys(keys) <==> k in keys && IsTreadmillKey(k) {
      FilterMembers(IsTreadmillKey, keys, k);
    }
    forall k ensures k in OtherKeys(keys) <==> k in keys && !IsTreadmillKey(k) {
      FilterMembers(notTreadmill, keys, k);
    }
    FilterIsSubsequence(IsTreadmillKey, keys);
    FilterIsSubsequence(notTreadmill, keys);
  }

  /** The order the expanders are shown in: a rearrangement of the keys that puts every
      treadmill key before every other key. */
  function DisplayOrder(keys: seq<string>): (d: seq<string>)
    ensures multiset(d) == multiset(keys)
    ensures forall i :: 0 <= i < |d| ==> (IsTreadmillKey(d[i]) <==> i < |TreadmillKeys(keys)|)
    ensures |d| == |TreadmillKeys(keys)| + |OtherKeys(keys)|
    ensures d[..|TreadmillKeys(keys)|] == TreadmillKeys(keys) && d[|TreadmillKeys(keys)|..] == OtherKeys(keys)
    ensures IsSubsequence(d[..|TreadmillKeys(keys)|], keys) && IsSubsequence(d[|TreadmillKeys(keys)|..], keys)
  {
    KeyPartition(keys);
    var d := TreadmillKeys(keys) + OtherKeys(keys);
    FilterAll(IsTreadmillKey, keys);
    FilterAll((k: string) => !IsTreadmillKey(k), keys);
    d
  }

  /** Without a settings entry no expander is shown and the summary box falls back to the
      general intensity text. */
  lemma MissingSettings(intensity: string)
    ensures TreadmillKeys(EquipmentDetails(None).keys) == [] && OtherKeys(EquipmentDetails(None).keys) == []
    ensures SummaryIntensity(EquipmentDetails(None), intensity) == intensity
  {
  }

  /** The preset the summary box uses is one of those shown expanded first: each
      priority key is itself a treadmill key. */
  lemma TreadmillInfoShownFirst(t: EquipmentTable)
    requires WellFormed(t)
    requires TreadmillInfo(t).Some?
    ensures exists k :: k in TreadmillKeys(t.keys) && k in t.presets && t.presets[k] == TreadmillInfo(t).value
  {
    var i :| 0 <= i < |TreadmillPriority| && TreadmillPriority[i] in t.presets
             && TreadmillInfo(t).value == t.presets[TreadmillPriority[i]];
    var k := TreadmillPriority[i];
    assert Text.OccursAt(k, "트레드밀", 0);
    Text.ContainsAt(k, "트레드밀", 0);
    FilterMembers(IsTreadmillKey, t.keys, k);
  }

  /** The tip shown under the equipment settings. */
  datatype CardioTip = SteadyPace | Intervals

  /** Steady-pace advice for a goal that mentions fat loss but not muscle gain, interval
      advice for every other goal. */
  function CardioTipFor(g: Goal): (tip: CardioTip)
    ensures tip == SteadyPace <==> g == WeightLoss
  {
    GoalKeywords(g);
    if ContainsLoss(g) && !ContainsGain(g) then SteadyPace else Intervals
  }
}
