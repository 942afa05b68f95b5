/** contact.go: the contact record and its loose e-mail check. */
module Contacts {
  import opened Base

  /** A Contact. The handlers hold it through a pointer and overwrite its
      fields in place, so it is an object. `companyId` is the *string the
      handlers and database.go use (None is nil). */
  class Contact {
    var id: string
    var contactType: string
    var firstName: string
    var lastName: string
    var email: string
    var phone: string
    var password: string
    var companyId: Option<string>

    constructor (id: string, contactType: string, firstName: string, lastName: string,
                 email: string, phone: string, password: string, companyId: Option<string>)
      ensures this.id == id && this.contactType == contactType
      ensures this.firstName == firstName && this.lastName == lastName
      ensures this.email == email && this.phone == phone
      ensures this.password == password && this.companyId == companyId
    {
      this.id := id;
      this.contactType := contactType;
      this.firstName := firstName;
      this.lastName := lastName;
      this.email := email;
      this.phone := phone;
      this.password := password;
      this.companyId := companyId;
    }
  }

  /** isValidEmail: the address contains an '@' somewhere and a '.'
      somewhere, in either order. */
  function IsValidEmail(email: string): (ok: bool)
    ensures ok <==> (exists i :: 0 <= i < |email| && email[i] == '@') &&
                    (exists j :: 0 <= j < |email| && email[j] == '.')
  {
    '@' in email && '.' in email
  }

  /** The check rejects the empty string and needs no order between the two
      characters. */
  lemma IsValidEmailExamples()
    ensures !IsValidEmail("")
    ensures IsValidEmail("@.") && IsValidEmail("a.b@c")
    ensures !IsValidEmail("ab@c") && !IsValidEmail("a.b")
  {
    assert "@."[0] == '@' && "@."[1] == '.';
    assert "a.b@c"[3] == '@' && "a.b@c"[1] == '.';
  }
}
