/**
 * The phone-number search of the team builder (shared/team-building/phone-search/index.tsx):
 * a typed number and its validity, the contact it resolves to, and a continue action that
 * hands the contact on and resets the input.
 */
module PhoneSearch {
  import opened Wrappers

  /** The two fields of an RPCTypes.ProcessedContact that the search reads. */
  datatype Contact = Contact(username: string, fullName: string)

  /** The team-building User emitted by onContinue. */
  datatype User = User(id: string, prettyName: string, serviceMap: map<string, string>)

  /** `assertionToContactMap.get(phoneNumber)`. */
  function Lookup(contacts: map<string, Contact>, phoneNumber: string): (r: Option<Contact>)
    ensures r.Some? <==> phoneNumber in contacts
    ensures r.Some? ==> r.value == contacts[phoneNumber]
  {
    if phoneNumber in contacts then Some(contacts[phoneNumber]) else None
  }

  /** The user that continuing with `contact`, found for `phoneNumber`, emits. */
  function ContinueUser(contact: Contact, phoneNumber: string): (u: User)
    ensures u.id == contact.username && u.prettyName == contact.fullName
    ensures u.serviceMap.Keys == {"phone"} && u.serviceMap["phone"] == phoneNumber
  {
    User(contact.username, contact.fullName, map["phone" := phoneNumber])
  }

  /** The phone number of an emitted user resolves back to the contact it was made from. */
  lemma ContinueUserResolves(contacts: map<string, Contact>, phoneNumber: string)
    requires phoneNumber in contacts
    ensures var u := ContinueUser(contacts[phoneNumber], phoneNumber);
      Lookup(contacts, u.serviceMap["phone"]) == Some(contacts[phoneNumber]) &&
      u.id == contacts[phoneNumber].username
  {
  }

  /** The inline confirmation box: `validity && !!user`. */
  predicate ShowsConfirmation(validity: bool, user: Option<Contact>)
    ensures ShowsConfirmation(validity, user) ==> ContinueDisabled(validity, user)
  {
    validity && user.Some?
  }

  /** The progress indicator: `validity && !user`. */
  predicate ShowsProgress(validity: bool, user: Option<Contact>)
    ensures ShowsProgress(validity, user) <==> !ContinueDisabled(validity, user)
    ensures ShowsProgress(validity, user) ==> !ShowsConfirmation(validity, user)
  {
    validity && user.None?
  }

  /** The Continue button's `disabled`: `!(validity && !user)`. */
  predicate ContinueDisabled(validity: bool, user: Option<Contact>)
    ensures !ContinueDisabled(validity, user) ==> user.None?
    ensures !validity ==> ContinueDisabled(validity, user)
  {
    !(validity && user.None?)
  }

  /** `disabled={!(validity && !!user)}`: enabled exactly with the confirmation box. */
  predicate ContinueDisabledIntended(validity: bool, user: Option<Contact>) {
    !(validity && user.Some?)
  }

  /**
   * As written, the Continue button is enabled only when there is no user, so it can never
   * continue; with the intended enablement it is enabled exactly when confirming is possible.
   */
  lemma ContinueButtonNeverContinues(validity: bool, user: Option<Contact>)
    ensures !ContinueDisabled(validity, user) ==> !ShowsConfirmation(validity, user)
    ensures ContinueDisabled(true, Some(Contact("alice", "Alice A")))
    ensures !ContinueDisabledIntended(validity, user) <==> ShowsConfirmation(validity, user)
  {
  }

  /** The confirmation box and the progress indicator are never shown together. */
  lemma IndicatorsExclusive(validity: bool, user: Option<Contact>)
    ensures !(ShowsConfirmation(validity, user) && ShowsProgress(validity, user))
    ensures validity ==> ShowsConfirmation(validity, user) || ShowsProgress(validity, user)
  {
  }

  /** The Continue button is enabled exactly while the progress indicator shows, with no user. */
  lemma EnabledButtonHasNoUser(validity: bool, user: Option<Contact>)
    ensures !ContinueDisabled(validity, user) <==> ShowsProgress(validity, user)
    ensures !ContinueDisabled(validity, user) ==> user.None?
  {
  }

  /**
   * The PhoneSearch component's state and the calls it makes on its parent: `numberChanges`
   * records the calls to props.onChangeNumber, `continued` the calls to props.onContinue.
   */
  class PhoneSearch {
    const contacts: map<string, Contact>
    var validity: bool
    var phoneNumber: string
    var phoneInputKey: int
    var numberChanges: seq<string>
    var continued: seq<User>

    /** The three useState cells start at false, '' and 0. */
    constructor (contacts: map<string, Contact>)
      ensures this.contacts == contacts
      ensures !validity && phoneNumber == "" && phoneInputKey == 0
      ensures numberChanges == [] && continued == []
    {
      this.contacts := contacts;
      validity := false;
      phoneNumber := "";
      phoneInputKey := 0;
      numberChanges := [];
      continued := [];
    }

    /** The contact the typed number resolves to, if any. */
    function CurrentUser(): (u: Option<Contact>)
      reads this
      ensures u.Some? <==> phoneNumber in contacts
    {
      Lookup(contacts, phoneNumber)
    }

    predicate ConfirmationShown()
      reads this
    {
      ShowsConfirmation(validity, CurrentUser())
    }

    predicate ProgressShown()
      reads this
    {
      ShowsProgress(validity, CurrentUser())
    }

    predicate ButtonDisabled()
      reads this
    {
      ContinueDisabled(validity, CurrentUser())
    }

    /** PhoneInput's onChangeNumber: forward the number to the parent once, then store it. */
    method OnChangeNumber(p: string)
      modifies this
      ensures numberChanges == old(numberChanges) + [p] && phoneNumber == p
      ensures validity == old(validity) && phoneInputKey == old(phoneInputKey)
      ensures continued == old(continued)
      ensures CurrentUser() == Lookup(contacts, p)
    {
      numberChanges := numberChanges + [p];
      phoneNumber := p;
    }

    /** PhoneInput's onChangeValidity: setValidity. */
    method OnChangeValidity(v: bool)
      modifies this
      ensures validity == v
      ensures phoneNumber == old(phoneNumber) && phoneInputKey == old(phoneInputKey)
      ensures numberChanges == old(numberChanges) && continued == old(continued)
    {
      validity := v;
    }

    /**
     * _onContinue: with a resolved user, emit it once with the number as it was, then clear
     * the number and validity and bump the input key; without one, do nothing.
     */
    method OnContinue()
      modifies this
      ensures old(CurrentUser()).Some? ==>
        continued == old(continued) + [ContinueUser(old(CurrentUser()).value, old(phoneNumber))] &&
        phoneNumber == "" && !validity && phoneInputKey == old(phoneInputKey) + 1
      ensures old(CurrentUser()).None? ==>
        continued == old(continued) && phoneNumber == old(phoneNumber) &&
        validity == old(validity) && phoneInputKey == old(phoneInputKey)
      ensures numberChanges == old(numberChanges)
      ensures old(CurrentUser()).Some? ==> !ConfirmationShown() && !ProgressShown() && ButtonDisabled()
    {
      var user := CurrentUser();
      if user.Some? {
        continued := continued + [ContinueUser(user.value, phoneNumber)];
        phoneNumber := "";
        phoneInputKey := phoneInputKey + 1;
        validity := false;
      }
    }

    /**
     * Clicking the Continue button as written: a disabled button ignores the click, and an
     * enabled one has no user to continue with, so a click never changes anything.
     */
    method ClickContinueButton()
      modifies this
      ensures continued == old(continued) && numberChanges == old(numberChanges)
      ensures phoneNumber == old(phoneNumber) && validity == old(validity)
      ensures phoneInputKey == old(phoneInputKey)
    {
      if !ButtonDisabled() {
        OnContinue();
      }
    }

    /** The Continue button enabled when a valid number resolves to a contact. */
    predicate ButtonDisabledIntended()
      reads this
    {
      ContinueDisabledIntended(validity, CurrentUser())
    }

    /** Clicking the Continue button with that enablement: an enabled click emits the user. */
    method ClickContinueButtonIntended()
      modifies this
      ensures !old(ButtonDisabledIntended()) ==>
        old(CurrentUser()).Some? &&
        continued == old(continued) + [ContinueUser(old(CurrentUser()).value, old(phoneNumber))] &&
        phoneNumber == "" && !validity && phoneInputKey == old(phoneInputKey) + 1
      ensures old(ButtonDisabledIntended()) ==>
        continued == old(continued) && phoneNumber == old(phoneNumber) &&
        validity == old(validity) && phoneInputKey == old(phoneInputKey)
      ensures numberChanges == old(numberChanges)
    {
      if !ButtonDisabledIntended() {
        OnContinue();
      }
    }
  }
}
