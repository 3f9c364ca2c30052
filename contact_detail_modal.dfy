/** The contact detail modal: the WhatsApp and e-mail links it offers. */
module ContactDetailModal {
  import opened Wrappers
  import opened Lists
  import opened Text
  import opened ContactRecord

  const WhatsAppPrefix := "https://wa.me/"
  const MailtoPrefix := "mailto:"

  /** `phone.replace(/\D/g, "")`: the phone with every non-digit deleted. */
  function StripNonDigits(phone: string): (r: string)
    ensures |r| <= |phone|
    ensures forall i :: 0 <= i < |r| ==> IsDigit(r[i])
  {
    Filter(phone, IsDigit)
  }

  /** The stripped phone holds each digit as often as the phone does, and nothing else. */
  lemma StripNonDigitsCount(phone: string, c: char)
    ensures multiset(StripNonDigits(phone))[c] == if IsDigit(c) then multiset(phone)[c] else 0
  {
    FilterCount(phone, IsDigit, c);
  }

  /** The digits keep their order: stripping two pieces of a phone and joining them is
      stripping the whole. */
  lemma StripNonDigitsAppend(a: string, b: string)
    ensures StripNonDigits(a + b) == StripNonDigits(a) + StripNonDigits(b)
  {
    FilterAppend(a, b, IsDigit);
  }

  /** A phone made of digits only passes through unchanged, so stripping twice is stripping once. */
  lemma StripNonDigitsIdempotent(phone: string)
    ensures (forall i :: 0 <= i < |phone| ==> IsDigit(phone[i])) ==> StripNonDigits(phone) == phone
    ensures StripNonDigits(StripNonDigits(phone)) == StripNonDigits(phone)
  {
    if forall i :: 0 <= i < |phone| ==> IsDigit(phone[i]) {
      FilterKeepsAll(phone, IsDigit);
    }
    FilterIdempotent(phone, IsDigit);
  }

  /** `getWhatsAppLink`. */
  function WhatsAppLink(phone: string): (r: string)
    ensures WhatsAppPrefix <= r
    ensures |r| <= |WhatsAppPrefix| + |phone|
    ensures forall i :: |WhatsAppPrefix| <= i < |r| ==> IsDigit(r[i])
  {
    WhatsAppPrefix + StripNonDigits(phone)
  }

  /** Reads back the number a WhatsApp link dials. */
  function WhatsAppNumber(link: string): Option<string> {
    if WhatsAppPrefix <= link then Some(link[|WhatsAppPrefix|..]) else None
  }

  /** The number in the link is exactly the phone's digits. */
  lemma WhatsAppLinkNumber(phone: string)
    ensures WhatsAppNumber(WhatsAppLink(phone)) == Some(StripNonDigits(phone))
  {
    var r := WhatsAppLink(phone);
    assert r[|WhatsAppPrefix|..] == StripNonDigits(phone);
  }

  /** `getMailtoLink`. */
  function MailtoLink(email: string): (r: string)
    ensures MailtoPrefix <= r && |r| == |MailtoPrefix| + |email|
  {
    MailtoPrefix + email
  }

  /** Reads back the address of a `mailto:` link. */
  function MailtoAddress(link: string): Option<string> {
    if MailtoPrefix <= link then Some(link[|MailtoPrefix|..]) else None
  }

  /** Dropping the seven characters of `mailto:` recovers the address, whatever it is. */
  lemma MailtoRoundTrip(email: string)
    ensures MailtoAddress(MailtoLink(email)) == Some(email)
  {
    assert MailtoLink(email)[|MailtoPrefix|..] == email;
  }

  /** Different addresses give different links. */
  lemma MailtoLinkInjective(a: string, b: string)
    requires MailtoLink(a) == MailtoLink(b)
    ensures a == b
  {
    MailtoRoundTrip(a);
    MailtoRoundTrip(b);
  }

  /** What the modal shows of a contact: its two links. */
  datatype ModalLinks = ModalLinks(whatsApp: string, mailto: string)

  /** The modal renders nothing without a contact, and otherwise the contact's two links. */
  function Modal(contact: Option<Contact>): (r: Option<ModalLinks>)
    ensures r.None? <==> contact.None?
    ensures r.Some? ==> WhatsAppNumber(r.value.whatsApp) == Some(StripNonDigits(contact.value.phone))
    ensures r.Some? ==> MailtoAddress(r.value.mailto) == Some(contact.value.email)
  {
    match contact
    case None => None
    case Some(c) =>
      WhatsAppLinkNumber(c.phone);
      MailtoRoundTrip(c.email);
      Some(ModalLinks(WhatsAppLink(c.phone), MailtoLink(c.email)))
  }
}
