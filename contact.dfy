/** The contact record shown by the list page and the detail modal. */
module ContactRecord {
  import opened Wrappers

  datatype Contact = Contact(
    id: int,
    name: string,
    email: string,
    phone: string,
    category: string,
    avatar: string,
    notes: Option<string>)
}
