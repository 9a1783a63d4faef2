/** The inbound dialog adapter (internal/signaling/dialer.go, incomingDialog).

    A final response is claimed under the dialog's lock and written with the lock released, so the
    claim and the write are separate steps here, and other callers may run in between. */
module IncomingDialog {
  import opened Prelude

  /** `sent` is the history of the responses handed to the transaction, and `claim` the caller that
      concluded the dialog with a final response. */
  datatype Dialog = Dialog(
    id: string,
    ringing: bool,
    concluded: bool,
    sdp: string,
    withdrawn: bool,
    sent: seq<nat>,
    claim: Option<nat>)

  function Fresh(id: string): Dialog {
    Dialog(id, false, false, "", false, [], None)
  }

  /** A provisional response, sent with the lock held; ringing only if the write succeeded. */
  function Provisional(d: Dialog, status: nat, written: bool): Dialog {
    if d.concluded then d else d.(sent := d.sent + [status], ringing := d.ringing || written)
  }

  /** The locked half of a final response. */
  function Claim(d: Dialog, caller: nat, status: nat, body: string): Dialog {
    if d.concluded then d
    else d.(concluded := true, claim := Some(caller), sdp := if status < 300 then body else d.sdp)
  }

  /** The unlocked half of a final response. */
  function Write(d: Dialog, status: nat): Dialog {
    d.(sent := d.sent + [status])
  }

  predicate CanEndPending(d: Dialog) {
    d.ringing && !d.concluded
  }

  /** A CANCEL or a BYE for a call still ringing. */
  function EndPending(d: Dialog): Dialog {
    if CanEndPending(d) then d.(concluded := true, withdrawn := true) else d
  }

  function Bye(d: Dialog): Dialog {
    d.(concluded := true)
  }

  /** One adapter object: the fields of the program, and the history the proofs follow. */
  class Adapter {
    const id: string
    var ringing: bool
    var concluded: bool
    var sdp: string
    var withdrawn: bool
    ghost var sent: seq<nat>
    ghost var claim: Option<nat>

    ghost function View(): Dialog
      reads this
    {
      Dialog(id, ringing, concluded, sdp, withdrawn, sent, claim)
    }

    constructor (id: string)
      ensures View() == Fresh(id)
    {
      this.id := id;
      ringing, concluded, sdp, withdrawn := false, false, "", false;
      sent, claim := [], None;
    }

    /** Respond with a status below 200; `written` is how the write went. */
    method RespondProvisional(status: nat, written: bool) returns (ok: bool)
      requires status < 200
      modifies this
      ensures View() == Provisional(old(View()), status, written)
      ensures ok <==> !old(concluded) && written
    {
      if concluded { return false; }
      sent := sent + [status];
      if !written { return false; }
      ringing := true;
      ok := true;
    }

    /** The claim of a final response; refused once the dialog is concluded. */
    method ClaimFinal(ghost caller: nat, status: nat, body: string) returns (ok: bool)
      requires status >= 200
      modifies this
      ensures View() == Claim(old(View()), caller, status, body)
      ensures ok <==> !old(concluded)
    {
      if concluded { return false; }
      concluded := true;
      claim := Some(caller);
      if status < 300 {
        sdp := body;
      }
      ok := true;
    }

    method EndPendingCall() returns (ended: bool)
      modifies this
      ensures View() == EndPending(old(View()))
      ensures ended <==> old(ringing) && !old(concluded)
    {
      if !ringing || concluded { return false; }
      concluded, withdrawn := true, true;
      ended := true;
    }

    method SendBye()
      modifies this
      ensures View() == Bye(old(View()))
    {
      concluded := true;
    }
  }

  /** Provisionals followed by at most one final response. */
  ghost predicate Disciplined(sent: seq<nat>) {
    forall i | 0 <= i < |sent| - 1 :: sent[i] < 200
  }

  ghost predicate NoFinal(sent: seq<nat>) {
    forall i | 0 <= i < |sent| :: sent[i] < 200
  }

  ghost predicate Valid(d: Dialog) {
    && Disciplined(d.sent)
    && (d.claim.Some? || d.withdrawn ==> d.concluded)
    && !(d.claim.Some? && d.withdrawn)
    && (!NoFinal(d.sent) ==> d.claim.Some?)
  }

  /** A caller between its claim and its write: the claim is its own and nothing final is out. */
  ghost predicate MayWrite(d: Dialog, caller: nat) {
    d.claim == Some(caller) && NoFinal(d.sent)
  }

  lemma ProvisionalKeepsValid(d: Dialog, status: nat, written: bool)
    requires Valid(d) && status < 200
    ensures Valid(Provisional(d, status, written))
    ensures NoFinal(d.sent) ==> NoFinal(Provisional(d, status, written).sent)
  {
    if !d.concluded {
      assert NoFinal(d.sent);
    }
  }

  /** Concluding is granted once: the claim succeeds only on an open dialog, and then nobody else
      may write a final response or withdraw the call. */
  lemma ClaimIsExclusive(d: Dialog, caller: nat, status: nat, body: string, other: nat)
    requires Valid(d) && !d.concluded
    ensures var c := Claim(d, caller, status, body);
            && Valid(c) && MayWrite(c, caller) && (other != caller ==> !MayWrite(c, other))
            && Claim(c, other, status, body) == c && EndPending(c) == c && !c.withdrawn
  {
    assert NoFinal(d.sent);
  }

  lemma WriteKeepsValid(d: Dialog, caller: nat, status: nat)
    requires Valid(d) && MayWrite(d, caller)
    ensures Valid(Write(d, status)) && (status >= 200 ==> !NoFinal(Write(d, status).sent))
    ensures forall c | c != caller :: !MayWrite(Write(d, status), c)
  {
    assert Write(d, status).sent[|d.sent|] == status;
  }

  /** A call counts as rung once a provisional response went out, only a rung and open one is withdrawn,
      and the body of an answer alone is kept. */
  lemma DialogEvents(d: Dialog, caller: nat, status: nat, body: string, written: bool)
    requires Valid(d) && !d.concluded
    ensures Provisional(d, status, written).ringing <==> d.ringing || written
    ensures EndPending(d).withdrawn <==> d.ringing || d.withdrawn
    ensures d.ringing ==> EndPending(d).concluded && EndPending(d).sent == d.sent
    ensures !d.ringing ==> EndPending(d) == d
    ensures Claim(d, caller, status, body).sdp == if status < 300 then body else d.sdp
    ensures Bye(d).concluded && Bye(d).sent == d.sent
  {
  }
}
