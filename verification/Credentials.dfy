/**
  * The credential chain: an AttentionRequired is answered from what is stored,
  * the rest is put to NetworkManager as hints, the dialog asks for the hinted
  * keys, and NewSecrets hands the reply to the slots that were left open.
  */
module Credentials {
  import opened Text
  import opened Numbers
  import opened Dialog

  const USERNAME := "username"
  const PASSWORD := "password"
  const CERTPASS := "cert-pass"
  const PROXY_USERNAME := "http-proxy-username"
  const PROXY_PASSWORD := "http-proxy-password"
  const CHALLENGE := "challenge-response"
  const MESSAGE_TAG := "x-vpn-message:"

  datatype Slot = Slot(kind: nat, group: nat, id: nat, name: string)

  datatype Provision = Provision(slot: Slot, value: string)

  /** `slot_to_vpn_key`. */
  function SlotKey(slot: Slot): string {
    var n := slot.name;
    if n == "username" then USERNAME
    else if n == "password" then PASSWORD
    else if HasPart(n, "challenge") || HasPart(n, "response") then CHALLENGE
    else if HasPart(n, "private_key") || HasPart(n, "key_pass") then CERTPASS
    else if HasPart(n, "http_proxy_user") then PROXY_USERNAME
    else if HasPart(n, "http_proxy_pass") then PROXY_PASSWORD
    else PASSWORD
  }

  predicate IsUserKey(key: string) { key == USERNAME || key == PROXY_USERNAME }

  /** `lookup_value`, an empty value counting as none. */
  function ValueFor(slot: Slot, data: Dict, secrets: Dict): Option<string> {
    var key := SlotKey(slot);
    var from := if IsUserKey(key) then data else secrets;
    if key in from && from[key] != "" then Some(from[key]) else None
  }

  /** The slots that stored values fill, with the values, in order. */
  function Filled(slots: seq<Slot>, data: Dict, secrets: Dict): seq<Provision>
    decreases |slots|
  {
    if slots == [] then []
    else
      var slot := slots[|slots| - 1];
      var v := ValueFor(slot, data, secrets);
      Filled(slots[..|slots| - 1], data, secrets) + if v.Some? then [Provision(slot, v.value)] else []
  }

  /** The slots nothing is stored for, in order. */
  function Lacking(slots: seq<Slot>, data: Dict, secrets: Dict): seq<Slot>
    decreases |slots|
  {
    if slots == [] then []
    else
      var slot := slots[|slots| - 1];
      Lacking(slots[..|slots| - 1], data, secrets) + if ValueFor(slot, data, secrets).None? then [slot] else []
  }

  function SlotsOf(ps: seq<Provision>): seq<Slot>
    decreases |ps|
  {
    if ps == [] then [] else SlotsOf(ps[..|ps| - 1]) + [ps[|ps| - 1].slot]
  }

  lemma SlotsOfMore(ps: seq<Provision>, p: Provision)
    ensures SlotsOf(ps + [p]) == SlotsOf(ps) + [p.slot]
  {
    assert (ps + [p])[..|ps|] == ps;
  }

  lemma OneMoreSlot(a: seq<Slot>, b: seq<Slot>, front: seq<Slot>, slot: Slot)
    requires multiset(a) + multiset(b) == multiset(front)
    ensures multiset(a + [slot]) + multiset(b) == multiset(front + [slot])
    ensures multiset(a) + multiset(b + [slot]) == multiset(front + [slot])
  {}

  /** Every slot is provided or still needed, and none twice. */
  lemma {:induction false} FilledAndLackingPartition(slots: seq<Slot>, data: Dict, secrets: Dict)
    ensures multiset(SlotsOf(Filled(slots, data, secrets))) + multiset(Lacking(slots, data, secrets)) == multiset(slots)
    decreases |slots|
  {
    hide ValueFor, SlotsOf;
    if slots == [] {
      NoneOfNone(slots, data, secrets);
    } else {
      var front, last := slots[..|slots| - 1], slots[|slots| - 1];
      FilledAndLackingPartition(front, data, secrets);
      assert slots == front + [last];
      var ps, open := Filled(front, data, secrets), Lacking(front, data, secrets);
      OneMoreSlot(SlotsOf(ps), open, front, last);
      match ValueFor(last, data, secrets) {
        case Some(v) =>
          SlotsOfMore(ps, Provision(last, v));
          assert open + [] == open;
        case None =>
          assert ps + [] == ps;
      }
    }
  }

  lemma NoneOfNone(slots: seq<Slot>, data: Dict, secrets: Dict)
    requires slots == []
    ensures SlotsOf(Filled(slots, data, secrets)) == [] && Lacking(slots, data, secrets) == []
  {}

  /** What is provided is the stored value, and what is still needed has none. */
  lemma {:induction false} EachOnItsSide(slots: seq<Slot>, data: Dict, secrets: Dict)
    ensures forall p :: p in Filled(slots, data, secrets) ==> ValueFor(p.slot, data, secrets) == Some(p.value)
    ensures forall slot :: slot in Lacking(slots, data, secrets) ==> ValueFor(slot, data, secrets).None?
    decreases |slots|
  {
    hide ValueFor;
    if slots != [] {
      EachOnItsSide(slots[..|slots| - 1], data, secrets);
    }
  }

  // ---------- AttentionRequired ----------

  /** The prompt and the hints sent with SecretsRequired. */
  function Hints(message: string, slots: seq<Slot>): seq<string>
    decreases |slots|
  {
    if slots == [] then (if message == "" then [] else [MESSAGE_TAG + message])
    else Hints(message, slots[..|slots| - 1]) + [SlotKey(slots[|slots| - 1])]
  }

  function Prompt(message: string): string {
    if message == "" then "OpenVPN 3 needs authentication" else message
  }

  method BuildHints(message: string, open: seq<Slot>) returns (hints: seq<string>)
    ensures hints == Hints(message, open)
  {
    hide SlotKey;
    hints := if message == "" then [] else [MESSAGE_TAG + message];
    for i := 0 to |open|
      invariant hints == Hints(message, open[..i])
    {
      assert open[..i + 1][..i] == open[..i];
      hints := hints + [SlotKey(open[i])];
    }
    assert open[..|open|] == open;
  }

  datatype Attention =
    | NothingToDo
    | Refused(slot: Slot)
    | AllProvided
    | Asked(pending: seq<Slot>, prompt: string, hints: seq<string>)

  /** The backend takes every value that is offered for the slots before `n`. */
  predicate Accepted(slots: seq<Slot>, n: nat, data: Dict, secrets: Dict, accepts: nat -> bool)
    requires n <= |slots|
  {
    forall i :: 0 <= i < n && ValueFor(slots[i], data, secrets).Some? ==> accepts(i)
  }

  /** `handle_attention`; `accepts(i)` is the answer to ProvideInput for slot number `i`. */
  method HandleAttention(slots: seq<Slot>, message: string, data: Dict, secrets: Dict, owned: bool,
                         accepts: nat -> bool)
    returns (result: Attention, provided: seq<Provision>)
    ensures slots == [] || !owned ==> result.NothingToDo? && provided == []
    ensures slots != [] && owned && Accepted(slots, |slots|, data, secrets, accepts) ==>
              && provided == Filled(slots, data, secrets)
              && var open := Lacking(slots, data, secrets);
                 result == if open == [] then AllProvided else Asked(open, Prompt(message), Hints(message, open))
    ensures slots != [] && owned && !Accepted(slots, |slots|, data, secrets, accepts) ==>
              exists k :: 0 <= k < |slots| && Accepted(slots, k, data, secrets, accepts) && !accepts(k)
                          && ValueFor(slots[k], data, secrets).Some?
                          && result == Refused(slots[k]) && provided == Filled(slots[..k], data, secrets)
  {
    hide ValueFor, Hints, Prompt;
    provided := [];
    if slots == [] || !owned {
      return NothingToDo, [];
    }
    var open: seq<Slot> := [];
    for i := 0 to |slots|
      invariant Accepted(slots, i, data, secrets, accepts)
      invariant provided == Filled(slots[..i], data, secrets) && open == Lacking(slots[..i], data, secrets)
    {
      assert slots[..i + 1][..i] == slots[..i];
      var v := ValueFor(slots[i], data, secrets);
      match v {
        case Some(value) =>
          if !accepts(i) {
            return Refused(slots[i]), provided;
          }
          provided := provided + [Provision(slots[i], value)];
        case None =>
          open := open + [slots[i]];
      }
    }
    assert slots[..|slots|] == slots;
    if open == [] {
      return AllProvided, provided;
    }
    var hints := BuildHints(message, open);
    result := Asked(open, Prompt(message), hints);
  }

  // ---------- What the dialog asks for ----------

  datatype Needed = Needed(
    password: bool,
    certpass: bool,
    proxypass: bool,
    challenge: bool,
    echo: bool,
    prompt: Option<string>)

  const ASKS_NOTHING := Needed(false, false, false, false, false, None)

  function Heed(n: Needed, hint: string): Needed {
    if MESSAGE_TAG <= hint then (if n.prompt.None? then n.(prompt := Some(hint[|MESSAGE_TAG|..])) else n)
    else if hint == PASSWORD then n.(password := true)
    else if hint == CERTPASS then n.(certpass := true)
    else if hint == PROXY_PASSWORD then n.(proxypass := true)
    else if hint == CHALLENGE || hint == "x-dynamic-challenge:challenge-response" then n.(challenge := true)
    else if hint == "x-dynamic-challenge-echo:challenge-response" then n.(challenge := true, echo := true)
    else n
  }

  function Heeded(hints: seq<string>): Needed
    decreases |hints|
  {
    if hints == [] then ASKS_NOTHING else Heed(Heeded(hints[..|hints| - 1]), hints[|hints| - 1])
  }

  /** A secret is required unless its flags say otherwise; flags that do not parse count as none. */
  predicate SecretRequired(data: Dict, key: string) {
    var flags := key + "-flags";
    flags in data ==> ParseU32(data[flags]).None? || ParseU32(data[flags]).value / 4 % 2 == 0
  }

  /** What is asked for when there are no hints; `encrypted` is the look into the key file. */
  function Inferred(data: Dict, encrypted: bool): Needed {
    if "connection-type" !in data then ASKS_NOTHING
    else
      var kind := data["connection-type"];
      Needed((kind == "password" || kind == "password-tls") && SecretRequired(data, PASSWORD),
             (kind == "tls" || kind == "password-tls") && "key" in data && encrypted,
             "proxy-server" in data && data["proxy-server"] != "" && SecretRequired(data, PROXY_PASSWORD),
             false, false, None)
  }

  method Needs(data: Dict, hints: seq<string>, encrypted: bool) returns (n: Needed)
    ensures n == if hints != [] then Heeded(hints) else Inferred(data, encrypted)
  {
    n := ASKS_NOTHING;
    if hints != [] {
      for i := 0 to |hints|
        invariant n == Heeded(hints[..i])
      {
        assert hints[..i + 1][..i] == hints[..i];
        n := Heed(n, hints[i]);
      }
      assert hints[..|hints|] == hints;
      return;
    }
    if "connection-type" !in data {
      return;
    }
    var kind := data["connection-type"];
    if kind == "tls" || kind == "password-tls" {
      if kind == "password-tls" && SecretRequired(data, PASSWORD) {
        n := n.(password := true);
      }
      if "key" in data && encrypted {
        n := n.(certpass := true);
      }
    } else if kind == "password" && SecretRequired(data, PASSWORD) {
      n := n.(password := true);
    }
    if "proxy-server" in data && data["proxy-server"] != "" && SecretRequired(data, PROXY_PASSWORD) {
      n := n.(proxypass := true);
    }
  }

  predicate AsksFor(n: Needed, key: string) {
    || (key == PASSWORD && n.password)
    || (key == CERTPASS && n.certpass)
    || (key == PROXY_PASSWORD && n.proxypass)
    || (key == CHALLENGE && n.challenge)
  }

  predicate HasKey(slots: seq<Slot>, key: string) { exists i :: 0 <= i < |slots| && SlotKey(slots[i]) == key }

  predicate IsVpnKey(key: string) {
    key == USERNAME || key == PROXY_USERNAME || key == PASSWORD || key == CERTPASS || key == PROXY_PASSWORD
    || key == CHALLENGE
  }

  lemma SlotKeyKinds(slot: Slot)
    ensures IsVpnKey(SlotKey(slot))
  {
    hide HasPart;
  }

  lemma HeedKey(n: Needed, key: string)
    requires IsVpnKey(key)
    ensures forall k :: AsksFor(Heed(n, key), k) <==> AsksFor(n, k) || (k == key && !IsUserKey(key))
    ensures Heed(n, key).prompt == n.prompt && Heed(n, key).echo == n.echo
  {
    assert MESSAGE_TAG[0] == 'x';
    assert "x-dynamic-challenge:challenge-response"[0] == 'x';
    assert "x-dynamic-challenge-echo:challenge-response"[0] == 'x';
    assert key[0] != 'x';
  }

  lemma HasKeySplit(slots: seq<Slot>, key: string)
    requires slots != []
    ensures HasKey(slots, key) <==> HasKey(slots[..|slots| - 1], key) || SlotKey(slots[|slots| - 1]) == key
  {
    hide SlotKey;
    var front := slots[..|slots| - 1];
    assert forall i :: 0 <= i < |front| ==> front[i] == slots[i];
    if HasKey(slots, key) && SlotKey(slots[|slots| - 1]) != key {
      var i :| 0 <= i < |slots| && SlotKey(slots[i]) == key;
      assert SlotKey(front[i]) == key;
    }
  }

  /** Fed the hints of the plugin, the dialog asks for the open slots' secret keys and for nothing else. */
  lemma {:induction false} DialogAsksExactly(message: string, slots: seq<Slot>)
    ensures var n := Heeded(Hints(message, slots));
      && (forall key :: AsksFor(n, key) <==> !IsUserKey(key) && HasKey(slots, key))
      && n.prompt == (if message == "" then None else Some(message))
      && !n.echo
    decreases |slots|
  {
    hide SlotKey, HasKey, Heed, AsksFor, IsUserKey;
    if slots == [] {
      NoSlots(message);
    } else {
      var front, last := slots[..|slots| - 1], slots[|slots| - 1];
      DialogAsksExactly(message, front);
      var before, key := Hints(message, front), SlotKey(last);
      assert (before + [key])[..|before|] == before;
      SlotKeyKinds(last);
      HeedKey(Heeded(before), key);
      forall k | true ensures HasKey(slots, k) <==> HasKey(front, k) || key == k {
        HasKeySplit(slots, k);
      }
    }
  }

  lemma HeedMessage(message: string)
    ensures Heed(ASKS_NOTHING, MESSAGE_TAG + message) == ASKS_NOTHING.(prompt := Some(message))
  {
    assert (MESSAGE_TAG + message)[|MESSAGE_TAG|..] == message;
  }

  lemma NoSlots(message: string)
    ensures forall key :: !HasKey([], key)
    ensures Heeded(Hints(message, [])) == ASKS_NOTHING.(prompt := if message == "" then None else Some(message))
    ensures forall key :: !AsksFor(Heeded(Hints(message, [])), key)
  {
    hide Heed;
    HeedMessage(message);
    var hint := MESSAGE_TAG + message;
    assert [hint][..0] == [];
    assert Heeded([hint]) == Heed(Heeded([]), hint);
  }

  // ---------- NewSecrets ----------

  /** Where a teardown that is seen ends the walk over the pending slots. */
  predicate Interrupted(slot: Slot, data: Dict, secrets: Dict, accepts: bool, torn: bool, tornLate: bool) {
    torn || (ValueFor(slot, data, secrets).Some? && !accepts && tornLate)
  }

  /** The slots before `n` that were provided. */
  function Sent(pending: seq<Slot>, n: nat, data: Dict, secrets: Dict, accepts: nat -> bool): seq<Provision>
    requires n <= |pending|
  {
    if n == 0 then []
    else
      var v := ValueFor(pending[n - 1], data, secrets);
      Sent(pending, n - 1, data, secrets, accepts)
      + if v.Some? && accepts(n - 1) then [Provision(pending[n - 1], v.value)] else []
  }

  function Misses(pending: seq<Slot>, n: nat, data: Dict, secrets: Dict, accepts: nat -> bool): nat
    requires n <= |pending|
  {
    if n == 0 then 0
    else
      Misses(pending, n - 1, data, secrets, accepts)
      + if ValueFor(pending[n - 1], data, secrets).Some? && accepts(n - 1) then 0 else 1
  }

  /** The walk went over `n` slots, and stopped there for a teardown unless these are all. */
  predicate Walked(pending: seq<Slot>, n: nat, data: Dict, secrets: Dict,
                   accepts: nat -> bool, torn: nat -> bool, tornLate: nat -> bool, ok: bool, sent: seq<Provision>)
  {
    && n <= |pending|
    && sent == Sent(pending, n, data, secrets, accepts)
    && (forall i :: 0 <= i < n ==> !Interrupted(pending[i], data, secrets, accepts(i), torn(i), tornLate(i)))
    && (n < |pending| ==> ok && Interrupted(pending[n], data, secrets, accepts(n), torn(n), tornLate(n)))
    && (n == |pending| ==> (ok <==> Misses(pending, n, data, secrets, accepts) == 0))
  }

  /**
    * The walk of `new_secrets`: `torn(i)` is the flag before slot `i`, and
    * `tornLate(i)` the flag after its ProvideInput failed.
    */
  method NewSecrets(pending: seq<Slot>, session: bool, data: Dict, secrets: Dict,
                    accepts: nat -> bool, torn: nat -> bool, tornLate: nat -> bool)
    returns (ok: bool, sent: seq<Provision>)
    ensures pending == [] || !session ==> ok && sent == []
    ensures session ==> exists n :: Walked(pending, n, data, secrets, accepts, torn, tornLate, ok, sent)
  {
    hide ValueFor, Interrupted;
    sent := [];
    if pending == [] {
      ok := true;
      assert Walked(pending, 0, data, secrets, accepts, torn, tornLate, ok, sent);
      return;
    }
    if !session {
      return true, [];
    }
    var missing := 0;
    for i := 0 to |pending|
      invariant sent == Sent(pending, i, data, secrets, accepts)
      invariant missing == Misses(pending, i, data, secrets, accepts)
      invariant forall k :: 0 <= k < i ==> !Interrupted(pending[k], data, secrets, accepts(k), torn(k), tornLate(k))
    {
      InterruptedMeans(pending[i], data, secrets, accepts(i), torn(i), tornLate(i));
      if torn(i) {
        ok := true;
        assert Walked(pending, i, data, secrets, accepts, torn, tornLate, ok, sent);
        return;
      }
      match ValueFor(pending[i], data, secrets) {
        case Some(value) =>
          if accepts(i) {
            sent := sent + [Provision(pending[i], value)];
          } else {
            if tornLate(i) {
              ok := true;
              assert Walked(pending, i, data, secrets, accepts, torn, tornLate, ok, sent);
              return;
            }
            missing := missing + 1;
          }
        case None =>
          missing := missing + 1;
      }
    }
    ok := missing == 0;
    assert Walked(pending, |pending|, data, secrets, accepts, torn, tornLate, ok, sent);
  }

  lemma InterruptedMeans(slot: Slot, data: Dict, secrets: Dict, accepts: bool, torn: bool, tornLate: bool)
    ensures Interrupted(slot, data, secrets, accepts, torn, tornLate) <==>
              torn || (ValueFor(slot, data, secrets).Some? && !accepts && tornLate)
  {}

  lemma {:induction false} NothingMissing(pending: seq<Slot>, n: nat, data: Dict, secrets: Dict, accepts: nat -> bool)
    requires n <= |pending|
    ensures Misses(pending, n, data, secrets, accepts) == 0 <==>
              forall i :: 0 <= i < n ==> ValueFor(pending[i], data, secrets).Some? && accepts(i)
    ensures Misses(pending, n, data, secrets, accepts) == 0 ==>
              Sent(pending, n, data, secrets, accepts) == Filled(pending[..n], data, secrets)
              && Lacking(pending[..n], data, secrets) == []
  {
    hide ValueFor;
    if n > 0 {
      NothingMissing(pending, n - 1, data, secrets, accepts);
      assert pending[..n][..n - 1] == pending[..n - 1];
    }
  }

  /** The reply holds a value for each key the dialog asked for, and the user names it does not ask for. */
  predicate Complete(n: Needed, slots: seq<Slot>, data: Dict, secrets: Dict) {
    && (forall key :: key in [PASSWORD, CERTPASS, PROXY_PASSWORD, CHALLENGE] && AsksFor(n, key) ==>
          key in secrets && secrets[key] != "")
    && (forall key :: key in [USERNAME, PROXY_USERNAME] && HasKey(slots, key) ==> key in data && data[key] != "")
  }

  /**
    * From the hints over the dialog to NewSecrets: a complete reply fills every
    * slot that was left open, so that all of them are provided, in order, and the
    * call returns success, unless a ProvideInput fails or a teardown comes in between.
    */
  lemma CompleteReplyFillsEverySlot(message: string, open: seq<Slot>, data: Dict, secrets: Dict, accepts: nat -> bool)
    requires Complete(Heeded(Hints(message, open)), open, data, secrets)
    requires forall i :: 0 <= i < |open| ==> accepts(i)
    ensures Misses(open, |open|, data, secrets, accepts) == 0
    ensures SlotsOf(Sent(open, |open|, data, secrets, accepts)) == open
  {
    hide SlotKey, Heeded, Hints;
    DialogAsksExactly(message, open);
    forall i | 0 <= i < |open| ensures ValueFor(open[i], data, secrets).Some? {
      SlotKeyKinds(open[i]);
      assert HasKey(open, SlotKey(open[i]));
      var key := SlotKey(open[i]);
      assert key in [PASSWORD, CERTPASS, PROXY_PASSWORD, CHALLENGE] || key in [USERNAME, PROXY_USERNAME];
    }
    NothingMissing(open, |open|, data, secrets, accepts);
    assert open[..|open|] == open;
    AllFilled(open, data, secrets);
  }

  /** Without a teardown the call succeeds exactly when every slot has a value and every value is taken. */
  lemma SucceedsExactly(pending: seq<Slot>, n: nat, data: Dict, secrets: Dict,
                        accepts: nat -> bool, torn: nat -> bool, tornLate: nat -> bool, ok: bool, sent: seq<Provision>)
    requires Walked(pending, n, data, secrets, accepts, torn, tornLate, ok, sent)
    requires forall i :: 0 <= i < |pending| ==> !torn(i) && !tornLate(i)
    ensures ok <==> forall i :: 0 <= i < |pending| ==> ValueFor(pending[i], data, secrets).Some? && accepts(i)
    ensures ok ==> SlotsOf(sent) == pending
  {
    hide ValueFor;
    assert n == |pending|;
    NothingMissing(pending, n, data, secrets, accepts);
    assert pending[..n] == pending;
    if ok {
      AllFilled(pending, data, secrets);
    }
  }

  /** What NewSecrets returns for a complete reply: success, with every open slot provided in order. */
  lemma CompleteReplySucceeds(message: string, open: seq<Slot>, n: nat, data: Dict, secrets: Dict,
                              accepts: nat -> bool, torn: nat -> bool, tornLate: nat -> bool,
                              ok: bool, sent: seq<Provision>)
    requires Complete(Heeded(Hints(message, open)), open, data, secrets)
    requires forall i :: 0 <= i < |open| ==> accepts(i) && !torn(i) && !tornLate(i)
    requires Walked(open, n, data, secrets, accepts, torn, tornLate, ok, sent)
    ensures ok && SlotsOf(sent) == open
  {
    hide Complete, Heeded, Hints, ValueFor;
    CompleteReplyFillsEverySlot(message, open, data, secrets, accepts);
    assert n == |open|;
  }

  lemma {:induction false} AllFilled(slots: seq<Slot>, data: Dict, secrets: Dict)
    requires forall i :: 0 <= i < |slots| ==> ValueFor(slots[i], data, secrets).Some?
    ensures SlotsOf(Filled(slots, data, secrets)) == slots
    decreases |slots|
  {
    hide ValueFor;
    if slots != [] {
      var front := slots[..|slots| - 1];
      AllFilled(front, data, secrets);
      var ps := Filled(front, data, secrets);
      assert (ps + [Provision(slots[|slots| - 1], ValueFor(slots[|slots| - 1], data, secrets).value)])[..|ps|] == ps;
    }
  }

  // ---------- The tables, on literal values ----------

  /** Which key a slot of the backend asks for, by its name; a name nobody knows counts as a password. */
  lemma KeyOfSlot(slot: Slot)
    ensures SlotKey(slot) ==
      if slot.name == "username" then "username"
      else if slot.name == "password" then "password"
      else if Mentions(slot.name, "challenge") || Mentions(slot.name, "response") then "challenge-response"
      else if Mentions(slot.name, "private_key") || Mentions(slot.name, "key_pass") then "cert-pass"
      else if Mentions(slot.name, "http_proxy_user") then "http-proxy-username"
      else if Mentions(slot.name, "http_proxy_pass") then "http-proxy-password"
      else "password"
  {
    hide HasPart, Mentions;
    MentionsPart(slot.name, "challenge");
    MentionsPart(slot.name, "response");
    MentionsPart(slot.name, "private_key");
    MentionsPart(slot.name, "key_pass");
    MentionsPart(slot.name, "http_proxy_user");
    MentionsPart(slot.name, "http_proxy_pass");
  }

  /** The two user names come from vpn.data, everything else from the secrets, and only if it is not empty. */
  lemma ValueComesFrom(slot: Slot, data: Dict, secrets: Dict, v: string)
    ensures ValueFor(slot, data, secrets) == Some(v) <==>
      var key := SlotKey(slot);
      var from := if key == "username" || key == "http-proxy-username" then data else secrets;
      v != "" && key in from && from[key] == v
  {
    hide SlotKey;
  }

  /** The prompt and the hints: the message in front under its tag, if there is one, then a key for each open slot. */
  lemma {:induction false} HintsInOrder(message: string, slots: seq<Slot>)
    ensures var hints := Hints(message, slots);
      var n := if message == "" then 0 else 1;
      && |hints| == n + |slots|
      && (message != "" ==> hints[0] == "x-vpn-message:" + message)
      && (forall i :: 0 <= i < |slots| ==> hints[n + i] == SlotKey(slots[i]))
    ensures Prompt(message) == if message == "" then "OpenVPN 3 needs authentication" else message
    decreases |slots|
  {
    hide SlotKey;
    if slots != [] {
      HintsInOrder(message, slots[..|slots| - 1]);
    }
  }

  /** The flag of value 4 says that a secret is not required; what is no number says nothing. */
  lemma RequiredByFlags(data: Dict, key: string, n: nat)
    ensures var flags := key + "-flags";
      && (flags !in data ==> SecretRequired(data, key))
      && (flags in data && data[flags] == ShowNat(n) && n <= 4294967295 ==>
            (SecretRequired(data, key) <==> n / 4 % 2 == 0))
      && (flags in data && ParseU32(data[flags]).None? ==> SecretRequired(data, key))
  {
    hide ParseU32, ShowNat;
    ReadsU32(n);
  }

  /** What the dialog asks for without hints, by connection type. */
  lemma AskedByType(data: Dict, encrypted: bool)
    ensures var n := Inferred(data, encrypted);
      var kind := if "connection-type" in data then data["connection-type"] else "";
      && (n.password <==> kind in {"password", "password-tls"} && SecretRequired(data, "password"))
      && (n.certpass <==> kind in {"tls", "password-tls"} && "key" in data && encrypted)
      && (n.proxypass <==> "connection-type" in data && "proxy-server" in data && data["proxy-server"] != ""
                           && SecretRequired(data, "http-proxy-password"))
      && !n.challenge && !n.echo && n.prompt == None
  {
    hide SecretRequired;
  }

  /** What one hint asks for. */
  lemma AskedByHint(n: Needed, hint: string)
    ensures hint == "password" ==> Heed(n, hint) == n.(password := true)
    ensures hint == "cert-pass" ==> Heed(n, hint) == n.(certpass := true)
    ensures hint == "http-proxy-password" ==> Heed(n, hint) == n.(proxypass := true)
    ensures hint == "challenge-response" || hint == "x-dynamic-challenge:challenge-response" ==>
      Heed(n, hint) == n.(challenge := true)
    ensures hint == "x-dynamic-challenge-echo:challenge-response" ==>
      Heed(n, hint) == n.(challenge := true, echo := true)
    ensures hint == "username" || hint == "http-proxy-username" ==> Heed(n, hint) == n
  {
    assert MESSAGE_TAG[2] == 'v' && "x-dynamic-challenge:challenge-response"[2] == 'd';
    assert "x-dynamic-challenge-echo:challenge-response"[2] == 'd';
    assert MESSAGE_TAG[0] == 'x';
  }
}
