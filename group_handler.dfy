/**
 * The group commands of the socket: create a group after checking every
 * participant's number, post a message to a group, and invite participants.
 * Each forwards to the session manager of `SessionRegistry` and turns what
 * it returns or throws into one frame.
 */
module GroupHandler {
  import opened Optional
  import opened JsSemantics
  import opened WaService
  import opened SessionRegistry
  import opened WsCommon

  /** The frame a group command sends; `LoginFailed` stands for the frame `checkLogin` sends itself. */
  datatype GroupFrame =
    | LoginFailed
    | InvalidNumbers(invalidNumbers: seq<JsValue>)
    | Forwarded(reply: GroupReply)
    | PostedToGroup(groupId: string)
    | PostFailed(error: string)
    | InviteReply(answer: Reply)

  /** `participants.filter(number => !isValidPhoneNumber(number))` */
  function InvalidParticipants(participants: seq<JsValue>): (r: seq<JsValue>)
    ensures |r| <= |participants|
    decreases |participants|
  {
    if participants == [] then []
    else
      var n := |participants| - 1;
      var before := InvalidParticipants(participants[..n]);
      if IsValidPhoneNumber(participants[n]) then before else before + [participants[n]]
  }

  /** The filter keeps exactly the invalid numbers, in their order, so it is empty exactly when every number is valid. */
  lemma {:induction false} InvalidParticipantsExact(participants: seq<JsValue>)
    ensures forall v :: v in InvalidParticipants(participants) <==> v in participants && !IsValidPhoneNumber(v)
    ensures InvalidParticipants(participants) == [] <==> forall i | 0 <= i < |participants| :: IsValidPhoneNumber(participants[i])
    decreases |participants|
  {
    if participants != [] {
      var n := |participants| - 1;
      InvalidParticipantsExact(participants[..n]);
      assert participants == participants[..n] + [participants[n]];
    }
  }

  /** The participants as the template literal `${num}@c.us` sees them. */
  function Numbers(participants: seq<JsValue>): (r: seq<string>)
    ensures |r| == |participants| && forall i | 0 <= i < |r| :: r[i] == ToString(participants[i])
  {
    seq(|participants|, i requires 0 <= i < |participants| => ToString(participants[i]))
  }

  /**
   * `createGroupHandler`: a single invalid number stops the command before
   * the service is called; otherwise the service's reply is forwarded.
   * `requested` is what the driver was asked to create a group with.
   */
  method CreateGroupHandler(m: SessionManager, decoded: Option<Claims>, accountType: string, groupName: string,
                            participants: seq<JsValue>, creation: GroupCreation)
    returns (frame: GroupFrame, requested: Option<seq<string>>)
    ensures decoded.None? ==> frame == LoginFailed && requested == None
    ensures decoded.Some? && InvalidParticipants(participants) != [] ==>
      frame == InvalidNumbers(InvalidParticipants(participants)) && requested == None
    ensures decoded.Some? && InvalidParticipants(participants) == [] ==>
      var key := AccountKey(accountType, ToString(decoded.value.username));
      var accepted := key in m.clients && |participants| >= 2;
      && frame.Forwarded?
      && (requested.Some? <==> accepted)
      && (accepted ==> requested == Some(ContactIds(Numbers(participants))))
      && (frame.reply.status == "success" <==> accepted && creation.Created?)
      && (frame.reply.status == "success" ==> frame.reply.groupId == Some(creation.gid))
  {
    if decoded.None? {
      return LoginFailed, None;
    }
    var invalidNumbers := InvalidParticipants(participants);
    if |invalidNumbers| > 0 {
      return InvalidNumbers(invalidNumbers), None;
    }
    var result;
    result, requested := m.CreateGroup(accountType, ToString(decoded.value.username), groupName, Some(Numbers(participants)), creation);
    frame := Forwarded(result);
  }

  /** A group is only ever requested with valid numbers, each addressed as `<number>@c.us`. */
  lemma RequestedGroupsAreValid(participants: seq<JsValue>)
    requires InvalidParticipants(participants) == []
    ensures forall i | 0 <= i < |ContactIds(Numbers(participants))| ::
      ContactIds(Numbers(participants))[i] == ToString(participants[i]) + "@c.us" && MatchesPhonePattern(ToString(participants[i]))
  {
    InvalidParticipantsExact(participants);
  }

  const PostedMessage: string := "Pesan berhasil dikirim ke grup"
  const PostFailedMessage: string := "Gagal mengirim pesan ke grup"

  /**
   * `sendMessageToGroupHandler`: success exactly when the service call does
   * not throw; the service throws when the account has no client or the
   * driver's send throws.
   */
  method SendMessageToGroupHandler(m: SessionManager, decoded: Option<Claims>, accountType: string, groupId: string,
                                   send: Attempt)
    returns (frame: GroupFrame)
    ensures decoded.None? ==> frame == LoginFailed
    ensures decoded.Some? ==>
      var key := AccountKey(accountType, ToString(decoded.value.username));
      && (frame == PostedToGroup(groupId) <==> key in m.clients && send.Succeeds?)
      && (key !in m.clients ==> frame == PostFailed("Client for " + key + " not found"))
      && (key in m.clients && send.Throws? ==> frame == PostFailed(send.message))
  {
    if decoded.None? {
      return LoginFailed;
    }
    var result, _ := m.SendMessageToGroup(accountType, ToString(decoded.value.username), groupId, send);
    if result.Throws? {
      return PostFailed(result.message);
    }
    frame := PostedToGroup(groupId);
  }

  /**
   * `inviteToGroupHandler`: the service's reply is forwarded as it is; the
   * service reports its own failures, so the handler's catch is not reached.
   */
  method InviteToGroupHandler(m: SessionManager, decoded: Option<Claims>, accountType: string, groupId: string,
                              participants: seq<string>, now: int, invite: Attempt)
    returns (frame: GroupFrame)
    requires m.Valid()
    modifies m`objects
    ensures m.Valid()
    ensures decoded.None? ==> frame == LoginFailed && m.Snapshot() == old(m.Snapshot())
    ensures decoded.Some? ==>
      var key := AccountKey(accountType, ToString(decoded.value.username));
      && m.Snapshot() == Stamp(old(m.Snapshot()), key, now)
      && frame.InviteReply?
      && (frame.answer.status == "success" <==> key in old(m.clients) && invite.Succeeds?)
      && (key in old(m.clients) && invite.Throws? ==> frame.answer == InviteFailure(invite.message))
  {
    if decoded.None? {
      return LoginFailed;
    }
    var result, _, _ := m.InviteToGroup(accountType, ToString(decoded.value.username), groupId, participants, now, invite);
    frame := InviteReply(result);
  }
}
