/** Model.swift: the chat message record and its `Codable` behaviour. Only
    `role` and `content` are coding keys; `roleType` is never written and a
    decoded message gets its default, `.user`. */
module MessageModel {
  import opened Wrappers
  import opened JsonValue
  import opened Constant

  datatype MessageInformation = MessageInformation(content: string, role: string, roleType: Role)

  /** `MessageInformation(roleType:content:)`. */
  function NewMessage(roleType: Role, content: string): (m: MessageInformation)
    ensures m.role == roleType.Name() && m.content == content && m.roleType == roleType
  {
    MessageInformation(content, roleType.Name(), roleType)
  }

  /** The coding keys, in declaration order. */
  const CodingKeys: seq<string> := ["role", "content"]

  /** The JSON object the synthesized `encode(to:)` writes. */
  function Encode(m: MessageInformation): Json
  {
    JObject(map["role" := JString(m.role), "content" := JString(m.content)])
  }

  /** The synthesized `init(from:)`: both keys must hold strings; other keys are
      ignored; `roleType` keeps its default. */
  function Decode(j: Json): Option<MessageInformation>
  {
    match AsObject(j)
    case None => None
    case Some(dict) =>
      match (StringMember(dict, "role"), StringMember(dict, "content"))
      case (Some(role), Some(content)) => Some(MessageInformation(content, role, User))
      case _ => None
  }

  /** Decoding a list fails as soon as one element fails. */
  function DecodeAll(items: seq<Json>): Option<seq<MessageInformation>>
  {
    if items == [] then Some([])
    else match (Decode(items[0]), DecodeAll(items[1..]))
      case (Some(m), Some(ms)) => Some([m] + ms)
      case _ => None
  }

  function EncodeAll(messages: seq<MessageInformation>): (r: seq<Json>)
    ensures |r| == |messages|
    ensures forall i :: 0 <= i < |messages| ==> r[i] == Encode(messages[i])
  {
    if messages == [] then [] else [Encode(messages[0])] + EncodeAll(messages[1..])
  }

  /** Exactly the coding keys are written; the role type is not among them. */
  lemma EncodeWritesCodingKeys(m: MessageInformation)
    ensures Encode(m).JObject? && Encode(m).members.Keys == set k | k in CodingKeys
    ensures forall t: Role :: Encode(m) == Encode(m.(roleType := t))
  {
  }

  /** A round trip keeps `role` and `content` and resets `roleType` to `.user`. */
  lemma RoundTrip(m: MessageInformation)
    ensures Decode(Encode(m)) == Some(MessageInformation(m.content, m.role, User))
  {
  }

  /** The other direction: whatever decodes re-encodes to its coding-key members. */
  lemma DecodeThenEncode(j: Json, m: MessageInformation)
    requires Decode(j) == Some(m)
    ensures j.JObject? && "role" in j.members && "content" in j.members
    ensures Encode(m) == JObject(map["role" := j.members["role"], "content" := j.members["content"]])
  {
  }

  /** A message list survives a round trip up to the role types. */
  lemma {:induction false} RoundTripAll(messages: seq<MessageInformation>)
    ensures DecodeAll(EncodeAll(messages)).Some?
    ensures var back := DecodeAll(EncodeAll(messages)).value;
      |back| == |messages| &&
      forall i :: 0 <= i < |messages| ==>
        back[i] == MessageInformation(messages[i].content, messages[i].role, User)
  {
    if messages != [] {
      RoundTripAll(messages[1..]);
      RoundTrip(messages[0]);
      assert EncodeAll(messages)[1..] == EncodeAll(messages[1..]);
    }
  }

  /** A custom role is written under its own name, and after a round trip the
      message no longer knows it was custom. */
  lemma CustomRoleRoundTrip(name: string, content: string)
    ensures NewMessage(Custom(name), content).role == name
    ensures Decode(Encode(NewMessage(Custom(name), content))).value.roleType == User
    ensures Decode(Encode(NewMessage(Custom(name), content))).value.roleType != Custom(name)
  {
  }
}
