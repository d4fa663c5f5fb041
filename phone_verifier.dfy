/**
 * The phone verification of the plugin: a store of per-user attributes
 * (`mobile`, `mobile_verified`, `mobile_verify_code`), the read-only checks
 * over it, and the operations that write it (collect a phone, issue a
 * one-time code by SMS, consume the code).
 */
module PhoneVerifier {
  import opened PhoneFormat
  import opened MessageTemplate

  datatype Option<T> = None | Some(value: T)

  type UserId = nat

  /**
   * The three user-meta entries the verifier reads and writes. An empty
   * `mobile` stands for a missing entry; `code` is `None` once deleted.
   */
  datatype Meta = Meta(mobile: string, verified: bool, code: Option<int>)

  /** What `get_user_meta` yields for a user without any of the three entries. */
  const NoMeta: Meta := Meta("", false, None)

  type MetaStore = map<UserId, Meta>

  /** A user account as loaded by the site: the fields the message uses and the roles. */
  datatype Account = Account(profile: Profile, roles: seq<string>)

  /** The only role that has to verify its phone. */
  const SubscriberRole: string := "subscriber"

  /** The first verification code that can be issued. */
  const MinCode: int := 111111

  /** The last verification code that can be issued. */
  const MaxCode: int := 999999

  function MetaOf(store: MetaStore, id: UserId): Meta {
    if id in store then store[id] else NoMeta
  }

  /** PHP's truth value of a string: only "" and "0" are false. */
  predicate Truthy(s: string) {
    s != "" && s != "0"
  }

  /** `get_user_phone`: the stored mobile, "" when there is none. */
  function UserPhone(store: MetaStore, id: UserId): (phone: string)
    ensures id !in store ==> phone == ""
    ensures id in store ==> phone == store[id].mobile
  {
    MetaOf(store, id).mobile
  }

  // ---------------------------------------------------------------------
  // Writes of the store, as functions of the old store
  // ---------------------------------------------------------------------

  /** The store after `update_user_meta(id, 'mobile', phone)`. */
  function StorePhone(store: MetaStore, id: UserId, phone: string): (r: MetaStore)
    ensures UserPhone(r, id) == phone
    ensures MetaOf(r, id).verified == MetaOf(store, id).verified
    ensures MetaOf(r, id).code == MetaOf(store, id).code
    ensures forall u :: u != id ==> MetaOf(r, u) == MetaOf(store, u)
  {
    store[id := MetaOf(store, id).(mobile := phone)]
  }

  /** The store after `update_user_meta(id, 'mobile_verify_code', code)`. */
  function StoreCode(store: MetaStore, id: UserId, code: int): (r: MetaStore)
    ensures MetaOf(r, id).code == Some(code)
    ensures UserPhone(r, id) == UserPhone(store, id)
    ensures MetaOf(r, id).verified == MetaOf(store, id).verified
    ensures forall u :: u != id ==> MetaOf(r, u) == MetaOf(store, u)
  {
    store[id := MetaOf(store, id).(code := Some(code))]
  }

  /** The store after the pending code is deleted and `mobile_verified` is set. */
  function MarkVerified(store: MetaStore, id: UserId): (r: MetaStore)
    ensures MetaOf(r, id).code == None
    ensures MetaOf(r, id).verified
    ensures UserPhone(r, id) == UserPhone(store, id)
    ensures forall u :: u != id ==> MetaOf(r, u) == MetaOf(store, u)
  {
    store[id := MetaOf(store, id).(code := None, verified := true)]
  }

  // ---------------------------------------------------------------------
  // Read-only checks
  // ---------------------------------------------------------------------

  /**
   * `needs_verification`: only when the SMS plugin is present, the account
   * exists, it has the subscriber role and its phone is not yet verified.
   */
  function NeedsVerification(smsPlugin: bool, accounts: map<UserId, Account>, store: MetaStore, id: UserId): (r: bool)
    ensures !smsPlugin ==> !r
    ensures id !in accounts ==> !r
    ensures MetaOf(store, id).verified ==> !r
    ensures smsPlugin && id in accounts && !MetaOf(store, id).verified ==>
              (r <==> SubscriberRole in accounts[id].roles)
  {
    if !smsPlugin then false
    else if id !in accounts then false
    else SubscriberRole in accounts[id].roles && !MetaOf(store, id).verified
  }

  datatype PhoneError = InvalidPhone | PhoneDuplicated

  datatype Outcome = Pass | Fail(error: PhoneError)

  /** The format `validate_phone` accepts: at least five characters, the first a `+`. */
  predicate WellFormedPhone(phone: string) {
    |phone| >= 5 && phone[0] == '+'
  }

  /** `duplicated_phone`: the number of `mobile` rows equal to `phone` of users other than `id` is positive. */
  function DuplicatedPhone(store: MetaStore, phone: string, id: UserId): (r: bool)
    requires phone != ""
    ensures r <==> exists u :: u != id && UserPhone(store, u) == phone
  {
    var r := exists u :: u in store && u != id && store[u].mobile == phone;
    assert r ==> exists u :: u != id && UserPhone(store, u) == phone by {
      if r {
        var u :| u in store && u != id && store[u].mobile == phone;
        assert UserPhone(store, u) == phone;
      }
    }
    r
  }

  /**
   * `validate_phone`: the format is checked first; only a well-formed phone
   * is looked up among the other users. The store is a value: nothing changes.
   */
  function ValidatePhone(store: MetaStore, phone: string, id: UserId): (r: Outcome)
    ensures r == Fail(InvalidPhone) <==> !WellFormedPhone(phone)
    ensures r == Fail(PhoneDuplicated) <==>
              WellFormedPhone(phone) && exists u :: u != id && UserPhone(store, u) == phone
    ensures r == Pass <==>
              WellFormedPhone(phone) && forall u :: u != id ==> UserPhone(store, u) != phone
  {
    if |phone| < 5 || phone[0] != '+' then Fail(InvalidPhone)
    else if DuplicatedPhone(store, phone, id) then Fail(PhoneDuplicated)
    else Pass
  }

  /**
   * `validate_code`: a non-zero pending code equal to the submitted one.
   * The stored value and the submitted one are modelled as one integer type;
   * the source compares a stored string with an integer strictly (`===`),
   * and that type distinction is not modelled.
   */
  function ValidateCode(store: MetaStore, id: UserId, code: int): (r: bool)
    ensures r <==> code != 0 && MetaOf(store, id).code == Some(code)
  {
    match MetaOf(store, id).code
    case None => false
    case Some(stored) => stored != 0 && stored == code
  }

  /**
   * The phone `send_verification_code` sends to: the argument when it is
   * truthy, otherwise the stored mobile when that is truthy.
   */
  function ResolvePhone(store: MetaStore, id: UserId, phone: string): (r: Option<string>)
    ensures r == None <==> !Truthy(phone) && !Truthy(UserPhone(store, id))
    ensures Truthy(phone) ==> r == Some(phone)
    ensures !Truthy(phone) && Truthy(UserPhone(store, id)) ==> r == Some(UserPhone(store, id))
  {
    var target := if Truthy(phone) then phone else UserPhone(store, id);
    if Truthy(target) then Some(target) else None
  }

  // ---------------------------------------------------------------------
  // The store as the verifier sees it: an object whose methods write it
  // ---------------------------------------------------------------------

  /**
   * The user-meta store with the site's accounts beside it. The accounts are
   * never written by the verifier. `outbox` records, in order, every
   * (phone, message) pair handed to the SMS gateway: it observes the sending
   * and is not state of the plugin.
   */
  class Verifier {
    const accounts: map<UserId, Account>
    var store: MetaStore
    ghost var outbox: seq<(string, string)>

    constructor (accounts: map<UserId, Account>, store: MetaStore)
      ensures this.accounts == accounts && this.store == store
      ensures outbox == []
    {
      this.accounts := accounts;
      this.store := store;
      outbox := [];
    }

    /** `set_user_phone`: stores the phone as given, without validation. */
    method SetUserPhone(id: UserId, phone: string)
      modifies this
      ensures store == StorePhone(old(store), id, phone)
      ensures outbox == old(outbox)
    {
      store := StorePhone(store, id, phone);
    }

    /** `generate_code_for_user`: draws a code in [111111, 999999] and stores it as pending. */
    method GenerateCodeForUser(id: UserId) returns (code: int)
      modifies this
      ensures MinCode <= code <= MaxCode
      ensures store == StoreCode(old(store), id, code)
      ensures outbox == old(outbox)
    {
      code :| MinCode <= code <= MaxCode;
      store := StoreCode(store, id, code);
    }

    /**
     * `send_verification_code`: fails without writing or sending anything
     * when the account does not exist or no phone can be resolved; otherwise
     * issues a code, hands exactly one message to the gateway `sendSms` and
     * returns its answer. The code stays pending whatever the gateway answers.
     */
    method SendVerificationCode(id: UserId, phone: string, configured: string,
                                sendSms: (string, string) -> bool)
      returns (ok: bool, ghost issued: Option<int>)
      modifies this
      ensures id !in accounts || ResolvePhone(old(store), id, phone) == None ==>
                !ok && issued == None && store == old(store) && outbox == old(outbox)
      ensures id in accounts && ResolvePhone(old(store), id, phone) != None ==>
                && issued != None
                && MinCode <= issued.value <= MaxCode
                && store == StoreCode(old(store), id, issued.value)
                && ok == sendSms(ResolvePhone(old(store), id, phone).value,
                                 Render(ChooseTemplate(configured), issued.value, accounts[id].profile))
                && outbox == old(outbox) + [(ResolvePhone(old(store), id, phone).value,
                                             Render(ChooseTemplate(configured), issued.value, accounts[id].profile))]
    {
      if id !in accounts {
        return false, None;
      }
      var target := ResolvePhone(store, id, phone);
      if target == None {
        return false, None;
      }
      var template := ChooseTemplate(configured);
      var code := GenerateCodeForUser(id);
      var message := Render(template, code, accounts[id].profile);
      ok := sendSms(target.value, message);
      outbox := outbox + [(target.value, message)];
      issued := Some(code);
    }

    /** `verify_user`: on a match the pending code is deleted and the phone marked verified. */
    method VerifyUser(id: UserId, code: int) returns (ok: bool)
      modifies this
      ensures ok == ValidateCode(old(store), id, code)
      ensures store == if ok then MarkVerified(old(store), id) else old(store)
      ensures outbox == old(outbox)
    {
      ok := ValidateCode(store, id, code);
      if ok {
        store := MarkVerified(store, id);
      }
    }
  }

  /** A code just issued is accepted once and refused afterwards. */
  method IssueAndVerifyTwice(v: Verifier, id: UserId) returns (first: bool, second: bool)
    modifies v
    ensures first && !second
    ensures v.store == MarkVerified(old(v.store), id)
    ensures v.outbox == old(v.outbox)
  {
    var code := v.GenerateCodeForUser(id);
    first := v.VerifyUser(id, code);
    second := v.VerifyUser(id, code);
  }

  // ---------------------------------------------------------------------
  // Properties of the verification flow
  // ---------------------------------------------------------------------

  /** Storing a phone overwrites the previous one: only the last write is kept. */
  lemma LastPhoneWins(store: MetaStore, id: UserId, first: string, second: string)
    ensures StorePhone(StorePhone(store, id, first), id, second) == StorePhone(store, id, second)
  {
  }

  /** Once a user stores a well-formed phone, every other user is told it is taken. */
  lemma StoredPhoneIsTaken(store: MetaStore, owner: UserId, id: UserId, phone: string)
    requires WellFormedPhone(phone) && owner != id
    ensures ValidatePhone(StorePhone(store, owner, phone), phone, id) == Fail(PhoneDuplicated)
  {
  }

  /** A user's own stored phone never makes that user's phone a duplicate. */
  lemma OwnPhoneIgnored(store: MetaStore, id: UserId, stored: string, phone: string)
    ensures ValidatePhone(StorePhone(store, id, stored), phone, id) == ValidatePhone(store, phone, id)
  {
  }

  /** A normalised phone passes the format check exactly when the input held four or more digits and dots. */
  lemma NormalisedPhoneFormat(store: MetaStore, raw: string, id: UserId)
    ensures ValidatePhone(store, ParsePhone(raw), id) != Fail(InvalidPhone) <==> |Keep(raw)| >= 4
  {
  }

  /** Issuing a code or consuming one leaves every phone-uniqueness answer as it was. */
  lemma CodesDoNotAffectValidation(store: MetaStore, id: UserId, code: int, phone: string, asker: UserId)
    ensures ValidatePhone(StoreCode(store, id, code), phone, asker) == ValidatePhone(store, phone, asker)
    ensures ValidatePhone(MarkVerified(store, id), phone, asker) == ValidatePhone(store, phone, asker)
  {
  }

  /** Only the most recently issued code is accepted: an earlier one is overwritten. */
  lemma LatestCodeOnly(store: MetaStore, id: UserId, code: int, submitted: int)
    requires MinCode <= code <= MaxCode
    ensures ValidateCode(StoreCode(store, id, code), id, submitted) <==> submitted == code
  {
  }

  /** A consumed code is refused: codes are single-use. */
  lemma CodeIsSingleUse(store: MetaStore, id: UserId, code: int)
    ensures !ValidateCode(MarkVerified(store, id), id, code)
  {
  }

  /** Another user's code is neither consumed nor issued by this user's steps. */
  lemma OtherUsersCodesUntouched(store: MetaStore, id: UserId, other: UserId, code: int, submitted: int)
    requires other != id
    ensures ValidateCode(StoreCode(store, id, code), other, submitted) == ValidateCode(store, other, submitted)
    ensures ValidateCode(MarkVerified(store, id), other, submitted) == ValidateCode(store, other, submitted)
  {
  }

  /** After a successful verification the user no longer needs to verify, whatever the role. */
  lemma VerifiedNeedsNothing(smsPlugin: bool, accounts: map<UserId, Account>, store: MetaStore, id: UserId)
    ensures !NeedsVerification(smsPlugin, accounts, MarkVerified(store, id), id)
  {
  }

  /** Storing a phone or a pending code does not change who needs to verify. */
  lemma WritesKeepTheGate(smsPlugin: bool, accounts: map<UserId, Account>, store: MetaStore,
                          id: UserId, asker: UserId, phone: string, code: int)
    ensures NeedsVerification(smsPlugin, accounts, StorePhone(store, id, phone), asker)
         == NeedsVerification(smsPlugin, accounts, store, asker)
    ensures NeedsVerification(smsPlugin, accounts, StoreCode(store, id, code), asker)
         == NeedsVerification(smsPlugin, accounts, store, asker)
  {
  }
}
