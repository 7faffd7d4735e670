/** The texts of the two signatures, as they are stored: keys in the order of code units, nothing in between. */
module Signatures {
  import opened Texts
  import opened KeySort
  import opened Json
  import opened FleetState
  import opened Dispatch
  import opened Cancel

  /** Text that is printed as it is: no quotes, no backslashes, no control characters. */
  predicate Verbatim(t: Text) {
    forall i | 0 <= i < |t| :: 32 <= t[i] < 127 && t[i] != 34 && t[i] != 92
  }

  lemma {:induction false} VerbatimEscape(t: Text)
    requires Verbatim(t)
    ensures Escape(t) == t
  {
    if t != [] {
      VerbatimEscape(t[1..]);
      assert t == [t[0]] + t[1..];
    }
  }

  /** The type as the protocol writes it. */
  function WireType(t: CommandType): Text {
    match t
    case GoToPose => Ascii("GO_TO_POSE")
    case CancelMission => Ascii("CANCEL_MISSION")
    case PauseMission => Ascii("PAUSE_MISSION")
    case ResumeMission => Ascii("RESUME_MISSION")
    case EmergencyStop => Ascii("EMERGENCY_STOP")
  }

  lemma WireTypeVerbatim(t: CommandType)
    ensures Verbatim(WireType(t)) && WireType(t) == TypeText(t)
  {
  }

  /** A key, quoted, with what it stands for. */
  function Keyed(key: Text, value: Text): Text {
    [34] + key + [34, 58] + value
  }

  const IN_MISSION: Text := Ascii("missionId")
  const IN_PAYLOAD: Text := Ascii("payload")
  const IN_ROBOT: Text := Ascii("robotId")
  const IN_TYPE: Text := Ascii("type")
  const IN_REASON: Text := Ascii("reason")

  lemma KeysVerbatim()
    ensures Verbatim(IN_MISSION) && Verbatim(IN_PAYLOAD) && Verbatim(IN_ROBOT) && Verbatim(IN_TYPE)
    ensures Verbatim(IN_REASON)
  {
  }

  lemma KeyOrder()
    ensures Less(IN_MISSION, IN_PAYLOAD) && Less(IN_PAYLOAD, IN_ROBOT) && Less(IN_ROBOT, IN_TYPE)
    ensures Less(IN_MISSION, IN_ROBOT) && Less(IN_MISSION, IN_TYPE) && Less(IN_PAYLOAD, IN_TYPE)
    ensures !Less(IN_TYPE, IN_PAYLOAD) && !Less(IN_ROBOT, IN_PAYLOAD) && !Less(IN_PAYLOAD, IN_MISSION)
    ensures !Less(IN_ROBOT, IN_MISSION) && !Less(IN_TYPE, IN_MISSION) && !Less(IN_TYPE, IN_ROBOT)
  {
    assert IN_MISSION[0] == 109 && IN_PAYLOAD[0] == 112 && IN_ROBOT[0] == 114 && IN_TYPE[0] == 116;
  }

  /** Four members in the order of the request, sorted. */
  lemma FourSorted(m: Member<Text>, r: Member<Text>, t: Member<Text>, p: Member<Text>)
    requires m.key == IN_MISSION && r.key == IN_ROBOT && t.key == IN_TYPE && p.key == IN_PAYLOAD
    ensures Sort([m, r, t, p], Less) == [m, p, r, t]
    ensures Sort([m, t, p], Less) == [m, p, t]
  {
    KeyOrder();
    hide Less;
    var last: seq<Member<Text>> := [p];
    assert [p][1..] == [];
    assert Sort(last, Less) == [p];
    assert [t, p][1..] == last;
    assert Insert(t, [p], Less) == [p] + Insert(t, [], Less);
    assert Sort([t, p], Less) == [p, t];
    assert [r, t, p][1..] == [t, p] && [p, t][1..] == [t];
    assert Insert(r, [t], Less) == [r] + [t];
    assert Insert(r, [p, t], Less) == [p] + Insert(r, [t], Less);
    assert Sort([r, t, p], Less) == [p, r, t];
    assert [m, r, t, p][1..] == [r, t, p] && [m, t, p][1..] == [t, p];
    assert Insert(m, [p, r, t], Less) == [m] + [p, r, t];
    assert Insert(m, [p, t], Less) == [m] + [p, t];
  }

  lemma Joined(a: Text, b: Text, c: Text, d: Text)
    ensures Join([a, b, c]) == a + [44] + (b + [44] + c)
    ensures Join([a, b, c, d]) == a + [44] + (b + [44] + (c + [44] + d))
  {
    assert [c, d][1..] == [d] && [b, c, d][1..] == [c, d] && [a, b, c, d][1..] == [b, c, d];
    assert [b, c][1..] == [c] && [a, b, c][1..] == [b, c];
    assert Join([d]) == d && Join([c]) == c;
    assert Join([c, d]) == c + [44] + Join([d]) && Join([b, c]) == b + [44] + Join([c]);
    assert Join([b, c, d]) == b + [44] + Join([c, d]);
  }

  lemma EntriesOf(a: Member<Text>, b: Member<Text>, c: Member<Text>, d: Member<Text>)
    requires Verbatim(a.key) && Verbatim(b.key) && Verbatim(c.key) && Verbatim(d.key)
    ensures Entries([a, b, c])
         == [Keyed(a.key, a.value), Keyed(b.key, b.value), Keyed(c.key, c.value)]
    ensures Entries([a, b, c, d])
         == [Keyed(a.key, a.value), Keyed(b.key, b.value), Keyed(c.key, c.value), Keyed(d.key, d.value)]
  {
    EntryIs(a);
    EntryIs(b);
    EntryIs(c);
    EntryIs(d);
    hide Quote, Keyed;
    assert [c, d][1..] == [d] && [b, c, d][1..] == [c, d] && [a, b, c, d][1..] == [b, c, d] && [d][1..] == [];
    assert [b, c][1..] == [c] && [a, b, c][1..] == [b, c] && [c][1..] == [];
    assert Entries([d]) == [Keyed(d.key, d.value)] + Entries([]);
    assert Entries([c]) == [Keyed(c.key, c.value)] + Entries([]);
    assert Entries([c, d]) == [Keyed(c.key, c.value)] + Entries([d]);
    assert Entries([b, c]) == [Keyed(b.key, b.value)] + Entries([c]);
    assert Entries([b, c, d]) == [Keyed(b.key, b.value)] + Entries([c, d]);
  }

  lemma EntryIs(m: Member<Text>)
    requires Verbatim(m.key)
    ensures Quote(m.key) + [58] + m.value == Keyed(m.key, m.value)
  {
    VerbatimEscape(m.key);
  }

  lemma PrintedMembers(a: Member<Json>, b: Member<Json>, c: Member<Json>, d: Member<Json>)
    ensures PrintMembers([a, b, c], Less)
         == [Member(a.key, Print(a.value, Less)), Member(b.key, Print(b.value, Less)),
             Member(c.key, Print(c.value, Less))]
    ensures PrintMembers([a, b, c, d], Less)
         == [Member(a.key, Print(a.value, Less)), Member(b.key, Print(b.value, Less)),
             Member(c.key, Print(c.value, Less)), Member(d.key, Print(d.value, Less))]
  {
    hide Print;
    assert [c, d][1..] == [d] && [b, c, d][1..] == [c, d] && [a, b, c, d][1..] == [b, c, d] && [d][1..] == [];
    assert [b, c][1..] == [c] && [a, b, c][1..] == [b, c] && [c][1..] == [];
    assert PrintMembers([d], Less) == [Member(d.key, Print(d.value, Less))] + PrintMembers([], Less);
    assert PrintMembers([c], Less) == [Member(c.key, Print(c.value, Less))] + PrintMembers([], Less);
    assert PrintMembers([c, d], Less) == [Member(c.key, Print(c.value, Less))] + PrintMembers([d], Less);
    assert PrintMembers([b, c], Less) == [Member(b.key, Print(b.value, Less))] + PrintMembers([c], Less);
    assert PrintMembers([b, c, d], Less) == [Member(b.key, Print(b.value, Less))] + PrintMembers([c, d], Less);
  }

  lemma ObjectPrinted(ms: seq<Member<Json>>, texts: seq<Text>)
    requires Entries(Sort(PrintMembers(ms, Less), Less)) == texts
    ensures Print(JObject(ms), Less) == [123] + Join(texts) + [125]
  {
  }

  /** Objects with these keys, printed with the keys in order. */
  lemma FourPrinted(m: Member<Json>, r: Member<Json>, t: Member<Json>, p: Member<Json>)
    requires m.key == IN_MISSION && r.key == IN_ROBOT && t.key == IN_TYPE && p.key == IN_PAYLOAD
    ensures Print(JObject([m, r, t, p]), Less)
         == [123] + (Keyed(IN_MISSION, Print(m.value, Less)) + [44]
            + (Keyed(IN_PAYLOAD, Print(p.value, Less)) + [44]
            + (Keyed(IN_ROBOT, Print(r.value, Less)) + [44] + Keyed(IN_TYPE, Print(t.value, Less))))) + [125]
  {
    hide Keyed, Verbatim, Print, PrintMembers, Sort, Entries, Join;
    KeysVerbatim();
    PrintedMembers(m, r, t, p);
    var x, y := Member(m.key, Print(m.value, Less)), Member(r.key, Print(r.value, Less));
    var z, w := Member(t.key, Print(t.value, Less)), Member(p.key, Print(p.value, Less));
    FourSorted(x, y, z, w);
    EntriesOf(x, w, y, z);
    var a, b := Keyed(x.key, x.value), Keyed(w.key, w.value);
    var c, d := Keyed(y.key, y.value), Keyed(z.key, z.value);
    Joined(a, b, c, d);
    ObjectPrinted([m, r, t, p], [a, b, c, d]);
  }

  lemma ThreePrinted(m: Member<Json>, t: Member<Json>, p: Member<Json>)
    requires m.key == IN_MISSION && t.key == IN_TYPE && p.key == IN_PAYLOAD
    ensures Print(JObject([m, t, p]), Less)
         == [123] + (Keyed(IN_MISSION, Print(m.value, Less)) + [44]
            + (Keyed(IN_PAYLOAD, Print(p.value, Less)) + [44] + Keyed(IN_TYPE, Print(t.value, Less)))) + [125]
  {
    hide Keyed, Verbatim, Print, PrintMembers, Sort, Entries, Join;
    KeysVerbatim();
    PrintedMembers(m, t, p, p);
    var x, z := Member(m.key, Print(m.value, Less)), Member(t.key, Print(t.value, Less));
    var w := Member(p.key, Print(p.value, Less));
    FourSorted(x, Member(IN_ROBOT, []), z, w);
    EntriesOf(x, w, z, z);
    var a, b, c := Keyed(x.key, x.value), Keyed(w.key, w.value), Keyed(z.key, z.value);
    Joined(a, b, c, []);
    ObjectPrinted([m, t, p], [a, b, c]);
  }

  lemma TypePrinted(t: CommandType)
    ensures Print(JString(TypeText(t)), Less) == [34] + WireType(t) + [34]
  {
    WireTypeVerbatim(t);
    VerbatimEscape(TypeText(t));
    hide TypeText, WireType;
  }

  /** The signature of a dispatch. */
  lemma DispatchSignatureIs(d: DispatchInput)
    ensures DispatchSignature(d)
         == [123] + (Keyed(IN_MISSION, Quote(d.missionId)) + [44]
            + (Keyed(IN_PAYLOAD, Print(d.payload, Less)) + [44]
            + (Keyed(IN_ROBOT, Quote(d.robotId)) + [44]
            + Keyed(IN_TYPE, [34] + WireType(d.commandType) + [34])))) + [125]
  {
    hide Keyed, WireType, TypeText, Quote;
    TypePrinted(d.commandType);
    var m, r := Member(IN_MISSION, JString(d.missionId)), Member(IN_ROBOT, JString(d.robotId));
    var t, p := Member(IN_TYPE, JString(TypeText(d.commandType))), Member(IN_PAYLOAD, d.payload);
    assert Print(m.value, Less) == Quote(d.missionId) && Print(r.value, Less) == Quote(d.robotId);
    assert SignedRequest(d) == JObject([m, r, t, p]);
    hide Print;
    FourPrinted(m, r, t, p);
  }

  /** The signature of a cancellation. */
  lemma CancelSignatureIs(c: CancelInput)
    ensures CancelSignature(c)
         == [123] + (Keyed(IN_MISSION, Quote(c.missionId)) + [44]
            + (Keyed(IN_PAYLOAD, [123] + Keyed(IN_REASON, Quote(c.reason)) + [125]) + [44]
            + Keyed(IN_TYPE, [34] + WireType(CancelMission) + [34]))) + [125]
  {
    hide Keyed, WireType, TypeText, Quote, ReasonPayload;
    TypePrinted(CancelMission);
    ReasonPrinted(c);
    var m, t := Member(IN_MISSION, JString(c.missionId)), Member(IN_TYPE, JString(TypeText(CancelMission)));
    var p := Member(IN_PAYLOAD, ReasonPayload(c));
    assert Print(m.value, Less) == Quote(c.missionId);
    assert SignedCancel(c) == JObject([m, t, p]);
    hide Print;
    ThreePrinted(m, t, p);
  }

  lemma ReasonPrinted(c: CancelInput)
    ensures Print(ReasonPayload(c), Less) == [123] + Keyed(IN_REASON, Quote(c.reason)) + [125]
  {
    KeysVerbatim();
    var ms := ReasonPayload(c).members;
    var m := Member(IN_REASON, Quote(c.reason));
    EntryIs(m);
    hide Keyed, Quote;
    assert ms[1..] == [] && PrintMembers(ms, Less) == [m] + PrintMembers([], Less);
    var one := [m];
    assert one[1..] == [] && Sort(one, Less) == one && Entries(one) == [Keyed(m.key, m.value)] + Entries([]);
  }
}
