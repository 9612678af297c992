/** The checkpoint annotation: its JSON form and the strict reader
    (internal/controller/credential_cleanup.go:34-79). */
module Checkpoint {
  import opened Results
  import opened Json
  import opened Credentials
  import opened GoStrings
  import Authority

  const STARTED := "credentialDeleteStarted"
  const CONFIRMED := "secretDeleteStarted"
  const POLICY_DELETE := "delete"
  const POLICY_KEEP := "keep"

  datatype State = State(
    version: int, phase: string, clusterUID: string, clusterName: string,
    secretName: string, secretUID: string, cloud: Binding,
    volumesPolicy: string, credentialPolicy: string)

  const ZERO_BINDING := Binding("", "", "", "", "", "", "")
  const ZERO := State(0, "", "", "", "", "", ZERO_BINDING, "", "")

  function BindingFields(b: Binding): seq<Field> {
    [Field("authority", Str(b.authority)), Field("projectID", Str(b.projectID)), Field("userID", Str(b.userID)),
     Field("region", Str(b.region)), Field("interface", Str(b.endpoint)), Field("cloudName", Str(b.cloudName)),
     Field("credentialID", Str(b.credentialID))]
  }

  function StateFields(s: State): seq<Field> {
    [Field("version", Num(s.version)), Field("phase", Str(s.phase)), Field("clusterUID", Str(s.clusterUID)),
     Field("clusterName", Str(s.clusterName)), Field("secretName", Str(s.secretName)),
     Field("secretUID", Str(s.secretUID)), Field("cloud", Obj(BindingFields(s.cloud))),
     Field("volumesPolicy", Str(s.volumesPolicy)), Field("credentialPolicy", Str(s.credentialPolicy))]
  }

  /** json.Marshal of a checkpoint. */
  function Encode(s: State): string {
    Print(Obj(StateFields(s)), "")
  }

  // ---------- the strict reader ----------

  /** encoding/json matches keys without regard to case; two non-ASCII letters fold to ASCII. */
  function FoldChar(c: char): char {
    if 'A' <= c <= 'Z' then (c as int + 32) as char
    else if c == '\U{017F}' then 's'
    else if c == '\U{212A}' then 'k'
    else c
  }

  predicate SameKey(key: string, name: string) {
    |key| == |name| && forall i :: 0 <= i < |key| ==> FoldChar(key[i]) == FoldChar(name[i])
  }

  predicate IsOneOf(key: string, names: set<string>) {
    exists name :: name in names && SameKey(key, name)
  }

  const BINDING_KEYS := {"authority", "projectID", "userID", "region", "interface", "cloudName", "credentialID"}
  const STATE_KEYS := {"version", "phase", "clusterUID", "clusterName", "secretName", "secretUID", "cloud",
                       "volumesPolicy", "credentialPolicy"}

  /** One field of the nested binding. Null leaves a known field as it is; an unknown field or
      another type is an error. */
  function SetBindingField(b: Binding, f: Field): Option<Binding> {
    match f.value
    case Null => if IsOneOf(f.key, BINDING_KEYS) then Some(b) else None
    case Str(v) =>
      if SameKey(f.key, "authority") then Some(b.(authority := v))
      else if SameKey(f.key, "projectID") then Some(b.(projectID := v))
      else if SameKey(f.key, "userID") then Some(b.(userID := v))
      else if SameKey(f.key, "region") then Some(b.(region := v))
      else if SameKey(f.key, "interface") then Some(b.(endpoint := v))
      else if SameKey(f.key, "cloudName") then Some(b.(cloudName := v))
      else if SameKey(f.key, "credentialID") then Some(b.(credentialID := v))
      else None
    case _ => None
  }

  function SetBindingFields(b: Binding, fields: seq<Field>): Option<Binding>
    decreases |fields|
  {
    if fields == [] then Some(b)
    else
      match SetBindingField(b, fields[0])
      case None => None
      case Some(b') => SetBindingFields(b', fields[1..])
  }

  function SetField(s: State, f: Field): Option<State> {
    match f.value
    case Null => if IsOneOf(f.key, STATE_KEYS) then Some(s) else None
    case Num(n) => if SameKey(f.key, "version") then Some(s.(version := n)) else None
    case Obj(fields) =>
      if !SameKey(f.key, "cloud") then None
      else
        (match SetBindingFields(s.cloud, fields)
         case None => None
         case Some(b) => Some(s.(cloud := b)))
    case Str(v) =>
      if SameKey(f.key, "phase") then Some(s.(phase := v))
      else if SameKey(f.key, "clusterUID") then Some(s.(clusterUID := v))
      else if SameKey(f.key, "clusterName") then Some(s.(clusterName := v))
      else if SameKey(f.key, "secretName") then Some(s.(secretName := v))
      else if SameKey(f.key, "secretUID") then Some(s.(secretUID := v))
      else if SameKey(f.key, "volumesPolicy") then Some(s.(volumesPolicy := v))
      else if SameKey(f.key, "credentialPolicy") then Some(s.(credentialPolicy := v))
      else None
  }

  function SetFields(s: State, fields: seq<Field>): Option<State>
    decreases |fields|
  {
    if fields == [] then Some(s)
    else
      match SetField(s, fields[0])
      case None => None
      case Some(s') => SetFields(s', fields[1..])
  }

  /** One JSON value with known fields only, and nothing after it. */
  function Decode(text: string): Option<State> {
    match ReadDocument(text)
    case Some(Null) => Some(ZERO)
    case Some(Obj(fields)) => SetFields(ZERO, fields)
    case _ => None
  }

  /** The validations that follow decoding. */
  predicate IsValid(s: State) {
    && s.version == 1
    && (s.phase == STARTED || s.phase == CONFIRMED)
    && s.clusterUID != "" && s.clusterName != "" && s.secretUID != "" && s.secretName != ""
    && s.credentialPolicy == POLICY_DELETE
    && (s.volumesPolicy == POLICY_DELETE || s.volumesPolicy == POLICY_KEEP)
    && ValidateBinding(s.cloud).Ok?
  }

  /** What the reader makes of an annotation: no checkpoint, a good one, or an unusable one. */
  datatype Reading = Absent | Good(state: State) | Bad

  function Read(annotation: Option<string>): Reading {
    match annotation
    case None => Absent
    case Some(text) =>
      match Decode(text)
      case None => Bad
      case Some(s) => if IsValid(s) then Good(s) else Bad
  }

  predicate IsTidy(s: string) {
    s != "" && TrimSpace(s) == s
  }

  /** The validations, field by field. */
  lemma GoodIff(text: string, s: State)
    ensures Read(Some(text)) == Good(s)
       <==> && Decode(text) == Some(s) && s.version == 1
            && (s.phase == "credentialDeleteStarted" || s.phase == "secretDeleteStarted")
            && s.clusterUID != "" && s.clusterName != "" && s.secretUID != "" && s.secretName != ""
            && s.credentialPolicy == "delete" && (s.volumesPolicy == "delete" || s.volumesPolicy == "keep")
            && Authority.NormalizeAuthority(s.cloud.authority) == Ok(s.cloud.authority)
            && (s.cloud.endpoint == "public" || s.cloud.endpoint == "internal" || s.cloud.endpoint == "admin")
            && IsTidy(s.cloud.projectID) && IsTidy(s.cloud.userID) && IsTidy(s.cloud.cloudName) && IsTidy(s.cloud.credentialID)
            && TrimSpace(s.cloud.region) == s.cloud.region
  {
    hide Decode, Authority.NormalizeAuthority, TrimSpace;
  }

  // ---------- the controller accepts what it writes ----------

  lemma BindingKeysDiffer()
    ensures !SameKey("projectID", "authority") && !SameKey("interface", "authority") && !SameKey("interface", "projectID")
    ensures !SameKey("cloudName", "authority") && !SameKey("cloudName", "projectID") && !SameKey("cloudName", "interface")
    ensures !SameKey("region", "userID")
  {
    assert FoldChar("authority"[0]) == 'a' && FoldChar("projectID"[0]) == 'p' && FoldChar("interface"[0]) == 'i';
    assert FoldChar("cloudName"[0]) == 'c' && FoldChar("region"[0]) == 'r' && FoldChar("userID"[0]) == 'u';
  }

  lemma StateKeysDiffer()
    ensures !SameKey("secretName", "clusterUID")
  {
    assert FoldChar("secretName"[0]) == 's' && FoldChar("clusterUID"[0]) == 'c';
  }

  lemma BindingRoundTrip(b: Binding)
    ensures SetBindingFields(ZERO_BINDING, BindingFields(b)) == Some(b)
  {
    BindingKeysDiffer();
    var f := BindingFields(b);
    assert f[1..][1..] == f[2..] && f[2..][1..] == f[3..] && f[3..][1..] == f[4..];
    assert f[4..][1..] == f[5..] && f[5..][1..] == f[6..] && f[6..][1..] == f[7..] == [];
    var b3 := ZERO_BINDING.(authority := b.authority, projectID := b.projectID, userID := b.userID);
    assert SetBindingFields(b3.(region := b.region, endpoint := b.endpoint, cloudName := b.cloudName), f[6..]) == Some(b);
    assert SetBindingFields(b3.(region := b.region, endpoint := b.endpoint), f[5..]) == Some(b);
    assert SetBindingFields(b3.(region := b.region), f[4..]) == Some(b);
    assert SetBindingFields(b3, f[3..]) == Some(b);
    assert SetBindingFields(ZERO_BINDING.(authority := b.authority, projectID := b.projectID), f[2..]) == Some(b);
    assert SetBindingFields(ZERO_BINDING.(authority := b.authority), f[1..]) == Some(b);
  }

  /** The last three fields, once the first six are set. */
  lemma StateTail(s: State, s6: State)
    requires s6 == s.(cloud := ZERO_BINDING, volumesPolicy := "", credentialPolicy := "")
    ensures SetFields(s6, StateFields(s)[6..]) == Some(s)
  {
    BindingRoundTrip(s.cloud);
    hide SetBindingFields, SetBindingField, BindingFields, IsOneOf;
    var f := StateFields(s);
    assert f[6..][1..] == f[7..] && f[7..][1..] == f[8..] && f[8..][1..] == f[9..] == [];
    var s7 := s6.(cloud := s.cloud);
    var s8 := s7.(volumesPolicy := s.volumesPolicy);
    assert SetFields(s8, f[8..]) == Some(s);
    assert SetFields(s7, f[7..]) == Some(s);
  }

  lemma StateRoundTrip(s: State)
    ensures SetFields(ZERO, StateFields(s)) == Some(s)
  {
    hide SetBindingFields, SetBindingField, BindingFields, IsOneOf;
    StateKeysDiffer();
    var f := StateFields(s);
    assert f[1..][1..] == f[2..] && f[2..][1..] == f[3..] && f[3..][1..] == f[4..] && f[4..][1..] == f[5..];
    assert f[5..][1..] == f[6..];
    var s1 := ZERO.(version := s.version);
    var s2 := s1.(phase := s.phase);
    var s3 := s2.(clusterUID := s.clusterUID);
    var s4 := s3.(clusterName := s.clusterName);
    var s5 := s4.(secretName := s.secretName);
    StateTail(s, s5.(secretUID := s.secretUID));
    assert SetFields(s5, f[5..]) == Some(s);
    assert SetFields(s4, f[4..]) == Some(s);
    assert SetFields(s3, f[3..]) == Some(s);
    assert SetFields(s2, f[2..]) == Some(s);
    assert SetFields(s1, f[1..]) == Some(s);
  }

  lemma EncodedIsPlain(s: State)
    requires s.version == 1
    ensures forall i :: 0 <= i < |StateFields(s)| ==> Plain(StateFields(s)[i].value)
  {
    assert forall i :: 0 <= i < |BindingFields(s.cloud)| ==> Plain(BindingFields(s.cloud)[i].value);
    assert Plain(Obj(BindingFields(s.cloud)));
  }

  /** The strict reader recovers every written checkpoint, whatever characters its names hold. */
  lemma DecodeAfterEncode(s: State)
    requires s.version == 1
    ensures Decode(Encode(s)) == Some(s)
  {
    EncodedIsPlain(s);
    ReadObjectAfterPrint(StateFields(s), "");
    StateRoundTrip(s);
    assert SkipBlanks(Encode(s)) == Encode(s);
  }

  /** Text after a checkpoint, other than blanks, makes it unreadable. */
  lemma TrailingDataIsRejected(s: State, extra: string)
    requires s.version == 1 && SkipBlanks(extra) != ""
    ensures Read(Some(Print(Obj(StateFields(s)), extra))) == Bad
  {
    EncodedIsPlain(s);
    ReadObjectAfterPrint(StateFields(s), extra);
    var text := Print(Obj(StateFields(s)), extra);
    assert SkipBlanks(text) == text;
  }

  /** A field whose key the checkpoint does not have, or, in an object, one the binding does not. */
  ghost predicate IsUnknown(f: Field) {
    || !IsOneOf(f.key, STATE_KEYS)
    || (f.value.Obj? && exists k :: 0 <= k < |f.value.fields| && !IsOneOf(f.value.fields[k].key, BINDING_KEYS))
  }

  lemma {:induction false} UnknownBindingFieldStops(b: Binding, fields: seq<Field>, k: nat)
    requires k < |fields| && !IsOneOf(fields[k].key, BINDING_KEYS)
    ensures SetBindingFields(b, fields) == None
    decreases |fields|
  {
    if k == 0 {
      var key := fields[0].key;
      assert forall name :: name in BINDING_KEYS ==> !SameKey(key, name);
      assert "authority" in BINDING_KEYS && "projectID" in BINDING_KEYS && "userID" in BINDING_KEYS && "region" in BINDING_KEYS
          && "interface" in BINDING_KEYS && "cloudName" in BINDING_KEYS && "credentialID" in BINDING_KEYS;
    } else if SetBindingField(b, fields[0]).Some? {
      UnknownBindingFieldStops(SetBindingField(b, fields[0]).value, fields[1..], k - 1);
    }
  }

  lemma UnknownFieldStops(s: State, f: Field)
    requires IsUnknown(f)
    ensures SetField(s, f) == None
  {
    if !IsOneOf(f.key, STATE_KEYS) {
      assert forall name :: name in STATE_KEYS ==> !SameKey(f.key, name);
      assert "version" in STATE_KEYS && "phase" in STATE_KEYS && "clusterUID" in STATE_KEYS && "clusterName" in STATE_KEYS
          && "secretName" in STATE_KEYS && "secretUID" in STATE_KEYS && "cloud" in STATE_KEYS
          && "volumesPolicy" in STATE_KEYS && "credentialPolicy" in STATE_KEYS;
    } else {
      var k :| 0 <= k < |f.value.fields| && !IsOneOf(f.value.fields[k].key, BINDING_KEYS);
      UnknownBindingFieldStops(s.cloud, f.value.fields, k);
    }
  }

  lemma {:induction false} UnknownFieldsStop(s: State, fields: seq<Field>, k: nat)
    requires k < |fields| && IsUnknown(fields[k])
    ensures SetFields(s, fields) == None
    decreases |fields|
  {
    hide SetField, IsUnknown;
    if k == 0 {
      UnknownFieldStops(s, fields[0]);
    } else if SetField(s, fields[0]).Some? {
      UnknownFieldsStop(SetField(s, fields[0]).value, fields[1..], k - 1);
    }
  }

  /** Any text with a field that neither the checkpoint nor its cloud binding has is unreadable,
      wherever the field stands. */
  lemma UnknownFieldIsRejected(text: string, fields: seq<Field>, k: nat)
    requires ReadDocument(text) == Some(Obj(fields)) && k < |fields| && IsUnknown(fields[k])
    ensures Read(Some(text)) == Bad
  {
    UnknownFieldsStop(ZERO, fields, k);
    hide ReadDocument, SetFields, IsUnknown;
  }

  /** Self-acceptance: the reader takes back a written checkpoint exactly when it is valid, and
      then as the same value. */
  lemma SelfAcceptance(s: State)
    requires s.version == 1
    ensures Read(Some(Encode(s))) == if IsValid(s) then Good(s) else Bad
  {
    DecodeAfterEncode(s);
  }
}
