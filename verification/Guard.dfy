/** The proxy's guard over browser frames (sandbox-proxy/src/guard.rs): its one chat slot. */
module Guard {
  import opened Wrappers

  const MAX_REPO_LEN: nat := 2048
  const MAX_RESUME_LEN: nat := 256
  const MAX_CHECKOUT_LEN: nat := 256

  datatype Kind = Pty | Acp | Unknown

  datatype Checkout = Checkout(branch: string, startRef: Option<string>)

  /** A decoded browser frame; `Bad` does not decode, `Denied` is a CTRL a browser may not send. */
  datatype Frame =
    | Bad
    | Denied
    | CredentialClear
    | Open(channel: nat, kind: Kind, repo: Option<string>, resume: Option<string>,
           token: Option<string>, checkout: Option<Checkout>)
    | OtherCtrl
    | Close(channel: nat)
    | Data(channel: nat)

  datatype Code = InvalidRequest | UnsupportedKind | ChatLimit

  datatype Verdict = Rejected | Forward | Reply(channel: nat, code: Code) | Clear | OpenAcp(channel: nat)

  predicate TooLong(f: Frame)
    requires f.Open?
  {
    || (f.repo.Some? && |f.repo.value| > MAX_REPO_LEN)
    || (f.resume.Some? && |f.resume.value| > MAX_RESUME_LEN)
    || (f.checkout.Some? && (|f.checkout.value.branch| > MAX_CHECKOUT_LEN
                             || (f.checkout.value.startRef.Some? && |f.checkout.value.startRef.value| > MAX_CHECKOUT_LEN)))
  }

  /** An `open` passes the length checks exactly if its repository has at most 2048 characters, its session to
      resume at most 256, and branch and start of its checkout at most 256 each. */
  lemma LengthLimits(f: Frame, repo: nat, resume: nat, branch: nat, start: nat)
    requires f.Open?
    requires repo == (if f.repo.Some? then |f.repo.value| else 0)
    requires resume == (if f.resume.Some? then |f.resume.value| else 0)
    requires branch == (if f.checkout.Some? then |f.checkout.value.branch| else 0)
    requires start == (if f.checkout.Some? && f.checkout.value.startRef.Some? then |f.checkout.value.startRef.value| else 0)
    ensures TooLong(f) <==> repo > 2048 || resume > 256 || branch > 256 || start > 256
  {
  }

  /** An `open` that reaches the sandbox as it came. */
  predicate Passes(f: Frame, slot: Option<nat>)
    requires f.Open?
  {
    f.channel != 0 && !TooLong(f) && slot != Some(f.channel) && f.kind == Pty && f.token == None
  }

  /** An `open` that takes the slot. */
  predicate Admitted(enabled: bool, slot: Option<nat>, f: Frame) {
    enabled && slot == None && f.Open? && f.channel != 0 && !TooLong(f) && f.kind == Acp
  }

  class Guard {
    var acpEnabled: bool
    var acpChannel: Option<nat>

    constructor (acp: bool)
      ensures acpEnabled == acp && acpChannel == None
    {
      acpEnabled, acpChannel := acp, None;
    }

    /** The chat slot is taken by an admitted `open` and freed by the browser's CLOSE, nothing else; no `open`
        of a chat is ever forwarded as it came; and each refusal has its own, single reason. */
    method CheckBrowserMessage(f: Frame) returns (v: Verdict)
      modifies this`acpChannel
      ensures acpChannel == (if Admitted(acpEnabled, old(acpChannel), f) then Some(f.channel)
                             else if f.Close? && old(acpChannel) == Some(f.channel) then None
                             else old(acpChannel))
      ensures v == Rejected <==> f.Bad? || f.Denied? || (f.Open? && f.channel == 0)
      ensures v == Clear <==> f.CredentialClear?
      ensures v.OpenAcp? <==> Admitted(acpEnabled, old(acpChannel), f)
      ensures v.OpenAcp? ==> v.channel == f.channel
      ensures v == Forward <==> f.OtherCtrl? || f.Close? || f.Data? || (f.Open? && Passes(f, old(acpChannel)))
      ensures v == Forward && f.Open? ==> f.kind == Pty && f.token == None
      ensures v.OpenAcp? <==> && f.Open? && f.channel != 0 && !TooLong(f) && f.kind == Acp && acpEnabled
                              && old(acpChannel) == None
      ensures v.OpenAcp? ==> acpChannel == Some(f.channel)
      ensures v.Reply? ==> f.Open? && v.channel == f.channel != 0
      ensures (v.Reply? && v.code == InvalidRequest) <==>
                && f.Open? && f.channel != 0
                && (TooLong(f) || old(acpChannel) == Some(f.channel) || (f.kind == Pty && f.token != None))
      ensures (v.Reply? && v.code == ChatLimit) <==>
                && f.Open? && f.channel != 0 && !TooLong(f) && f.kind == Acp && acpEnabled
                && old(acpChannel).Some? && old(acpChannel) != Some(f.channel)
      ensures (v.Reply? && v.code == UnsupportedKind) <==>
                && f.Open? && f.channel != 0 && !TooLong(f) && old(acpChannel) != Some(f.channel)
                && (f.kind == Unknown || (f.kind == Acp && !acpEnabled))
      ensures f.Open? && f.channel != 0 ==> v.Reply? || v.OpenAcp? || v == Forward
    {
      match f
      case Bad => return Rejected;
      case Denied => return Rejected;
      case CredentialClear => return Clear;
      case Open(channel, kind, repo, resume, token, checkout) =>
        if channel == 0 {
          return Rejected;
        }
        if (repo.Some? && |repo.value| > MAX_REPO_LEN) || (resume.Some? && |resume.value| > MAX_RESUME_LEN) {
          return Reply(channel, InvalidRequest);
        }
        if checkout.Some? {
          var c := checkout.value;
          if |c.branch| > MAX_CHECKOUT_LEN || (c.startRef.Some? && |c.startRef.value| > MAX_CHECKOUT_LEN) {
            return Reply(channel, InvalidRequest);
          }
        }
        if acpChannel == Some(channel) {
          return Reply(channel, InvalidRequest);
        }
        match kind {
          case Pty =>
            if token.Some? {
              return Reply(channel, InvalidRequest);
            }
          case Acp =>
            if !acpEnabled {
              return Reply(channel, UnsupportedKind);
            }
            if acpChannel.Some? {
              return Reply(channel, ChatLimit);
            }
            acpChannel := Some(channel);
            return OpenAcp(channel);
          case Unknown =>
            return Reply(channel, UnsupportedKind);
        }
        return Forward;
      case OtherCtrl => return Forward;
      case Close(channel) =>
        if acpChannel == Some(channel) {
          acpChannel := None;
        }
        return Forward;
      case Data(_) => return Forward;
    }

    /** The proxy itself refused an admitted open, or the sandbox closed or refused the channel. The chat
        of that channel, and of no other one, loses the slot: then every chat open is admitted that a new
        guard would admit, and otherwise admission stays as it was. */
    method ReleaseAcp(channel: nat)
      modifies this`acpChannel
      ensures acpChannel == Freed(old(acpChannel), channel)
      ensures forall c :: acpChannel == Some(c) <==> old(acpChannel) == Some(c) && c != channel
      ensures old(acpChannel) == Some(channel) ==>
                forall f :: Admitted(acpEnabled, acpChannel, f) <==> Admitted(acpEnabled, None, f)
      ensures old(acpChannel) != Some(channel) ==>
                forall f :: Admitted(acpEnabled, acpChannel, f) <==> Admitted(acpEnabled, old(acpChannel), f)
    {
      if acpChannel == Some(channel) {
        acpChannel := None;
      }
    }
  }

  function Freed(slot: Option<nat>, channel: nat): Option<nat> {
    if slot == Some(channel) then None else slot
  }
}
