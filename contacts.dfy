/** The emergency-contact details and the add form's guard, shared by web and mobile. */
module Contacts {

  /** What the add form collects, and what a contact stores besides its id. */
  datatype ContactDetails = ContactDetails(name: string, phone: string, relationship: string)

  const EMPTY_CONTACT_FORM: ContactDetails := ContactDetails("", "", "")

  /** Name and phone are required; the relationship may stay empty. */
  predicate HasRequiredFields(form: ContactDetails) {
    form.name != "" && form.phone != ""
  }
}
