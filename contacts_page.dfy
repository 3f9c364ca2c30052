/** The contact list page: search and category filtering, pagination with a
    five-wide window of page buttons, and the two-step delete. */
module ContactsPage {
  import opened Wrappers
  import opened Lists
  import opened Text
  import opened ContactRecord

  const ItemsPerPage := 10
  const MaxPagesToShow := 5

  /** The options of the category drop-down, after "all categories" (""). */
  const Categories: seq<string> := ["Cliente", "Fornecedor", "Parceiro", "Prospect"]

  // ---------------------------------------------------------------------------
  // Filtering

  /** Name or e-mail contains the term, ignoring case; or the phone contains it verbatim. */
  predicate MatchesSearch(c: Contact, term: string) {
    || Contains(ToLower(c.name), ToLower(term))
    || Contains(ToLower(c.email), ToLower(term))
    || Contains(c.phone, term)
  }

  /** No category selected, or the contact's category is the selected one. */
  predicate MatchesCategory(c: Contact, category: string) {
    category == "" || c.category == category
  }

  /** The test `filteredContacts` applies to each contact. */
  function Matches(term: string, category: string): Contact -> bool {
    c => MatchesSearch(c, term) && MatchesCategory(c, category)
  }

  /** `filteredContacts`: the contacts passing both tests. */
  function FilterContacts(contacts: seq<Contact>, term: string, category: string): (r: seq<Contact>)
    ensures |r| <= |contacts|
    ensures forall i :: 0 <= i < |r| ==>
      r[i] in contacts && MatchesSearch(r[i], term) && MatchesCategory(r[i], category)
    ensures forall i :: 0 <= i < |contacts| && MatchesSearch(contacts[i], term) && MatchesCategory(contacts[i], category) ==>
      contacts[i] in r
  {
    Filter(contacts, Matches(term, category))
  }

  /** The filtered list keeps the original order: filtering two runs of contacts one after
      the other gives the two filtered runs one after the other. */
  lemma FilterContactsAppend(a: seq<Contact>, b: seq<Contact>, term: string, category: string)
    ensures FilterContacts(a + b, term, category) == FilterContacts(a, term, category) + FilterContacts(b, term, category)
  {
    FilterAppend(a, b, Matches(term, category));
  }

  /** A matching contact appears in the filtered list as often as in the list; any other never. */
  lemma FilterContactsCount(contacts: seq<Contact>, term: string, category: string, c: Contact)
    ensures multiset(FilterContacts(contacts, term, category))[c] ==
      if MatchesSearch(c, term) && MatchesCategory(c, category) then multiset(contacts)[c] else 0
  {
    FilterCount(contacts, Matches(term, category), c);
  }

  /** With an empty search box and "all categories" every contact passes. */
  lemma MatchesWithoutCriteria(c: Contact)
    ensures MatchesSearch(c, "") && MatchesCategory(c, "")
  {
    assert ToLower("") == "";
    ContainsEmpty(ToLower(c.name));
  }

  /** With an empty search box and "all categories" the whole list is shown. */
  lemma FilterWithoutCriteriaKeepsAll(contacts: seq<Contact>)
    ensures FilterContacts(contacts, "", "") == contacts
  {
    forall i | 0 <= i < |contacts| ensures Matches("", "")(contacts[i]) {
      MatchesWithoutCriteria(contacts[i]);
    }
    FilterKeepsAll(contacts, Matches("", ""));
  }

  // ---------------------------------------------------------------------------
  // Pagination

  /** `totalPages`: `Math.ceil(n / itemsPerPage)`, the fewest pages that hold `n` items. */
  function PageCount(n: nat): (t: nat)
    ensures n <= t * ItemsPerPage
    ensures t == 0 || (t - 1) * ItemsPerPage < n
  {
    (n + ItemsPerPage - 1) / ItemsPerPage
  }

  /** `currentItems`: `s.slice((page - 1) * itemsPerPage, page * itemsPerPage)`. */
  function PageItems<T>(s: seq<T>, page: int): (r: seq<T>)
    requires page >= 1
    ensures |r| <= ItemsPerPage
    ensures |r| == Max(0, Min(page * ItemsPerPage, |s|) - (page - 1) * ItemsPerPage)
    ensures forall i :: 0 <= i < |r| ==> r[i] == s[(page - 1) * ItemsPerPage + i]
  {
    var first := (page - 1) * ItemsPerPage;
    var last := page * ItemsPerPage;
    s[Min(first, |s|)..Min(last, |s|)]
  }

  /** Pages 1 to `k`, laid end to end. */
  function PagesUpTo<T>(s: seq<T>, k: nat): seq<T> {
    if k == 0 then [] else PagesUpTo(s, k - 1) + PageItems(s, k)
  }

  /** The first `k` pages together are the first `k * itemsPerPage` items. */
  lemma {:induction false} PagesUpToIsPrefix<T>(s: seq<T>, k: nat)
    ensures PagesUpTo(s, k) == s[..Min(k * ItemsPerPage, |s|)]
  {
    if k > 0 {
      PagesUpToIsPrefix(s, k - 1);
      var lo := Min((k - 1) * ItemsPerPage, |s|);
      var hi := Min(k * ItemsPerPage, |s|);
      assert PageItems(s, k) == s[lo..hi];
      assert s[..lo] + s[lo..hi] == s[..hi];
    }
  }

  /** Pages 1 to `totalPages`, laid end to end, are exactly the list: every item is on one page, once. */
  lemma AllPagesReassemble<T>(s: seq<T>)
    ensures PagesUpTo(s, PageCount(|s|)) == s
  {
    PagesUpToIsPrefix(s, PageCount(|s|));
    assert s[..|s|] == s;
  }

  /** Every page from 1 to `totalPages` has at least one item; any later page is empty, and
      its "Mostrando" range runs backwards. */
  lemma PagesInRange<T>(s: seq<T>, page: int)
    requires page >= 1
    ensures page <= PageCount(|s|) <==> PageItems(s, page) != []
    ensures page > PageCount(|s|) ==> ShownFirst(page) > ShownLast(page, |s|)
  {
  }

  /** The first number of the "Mostrando first a last de n" line. */
  function ShownFirst(page: int): int {
    (page - 1) * ItemsPerPage + 1
  }

  /** The last number of the "Mostrando first a last de n" line. */
  function ShownLast(page: int, n: nat): int {
    Min(page * ItemsPerPage, n)
  }

  /** For an existing page, the "Mostrando" line names exactly the positions (counted from 1)
      of the items on that page. */
  lemma ShownRangeDescribesPage<T>(s: seq<T>, page: int)
    requires 1 <= page <= PageCount(|s|)
    ensures 1 <= ShownFirst(page) <= ShownLast(page, |s|) <= |s|
    ensures PageItems(s, page) == s[ShownFirst(page) - 1..ShownLast(page, |s|)]
  {
  }

  /** `getPageNumbers`: up to five consecutive page numbers around `current`, shifted left
      so that the window never runs past the last page. */
  function PageNumbers(current: int, total: nat): (r: seq<int>)
    ensures |r| == Min(MaxPagesToShow, total)
    ensures forall i :: 0 <= i < |r| ==> 1 <= r[i] <= total
    ensures forall i :: 0 < i < |r| ==> r[i] == r[i - 1] + 1
    ensures 1 <= current <= total ==> current in r
  {
    var startPage := Max(1, current - MaxPagesToShow / 2);
    var endPage := startPage + MaxPagesToShow - 1;
    var (s, e) :=
      if endPage > total then (Max(1, total - MaxPagesToShow + 1), total)
      else (startPage, endPage);
    var r := seq(e - s + 1, i => s + i);
    assert 1 <= current <= total ==> r[current - s] == current;
    r
  }

  /** The window is centred on the current page when two pages fit on each side of it, is
      the last pages when the current page is within two of the end, and is the first pages
      when the current page is within two of the start. */
  lemma PageWindowPosition(current: int, total: nat)
    ensures 3 <= current && current + 2 <= total ==>
      PageNumbers(current, total) == [current - 2, current - 1, current, current + 1, current + 2]
    ensures 0 < total < current + 3 ==> PageNumbers(current, total)[|PageNumbers(current, total)| - 1] == total
    ensures 0 < total && current <= 3 ==> PageNumbers(current, total)[0] == 1
  {
    var r := PageNumbers(current, total);
    if 3 <= current && current + 2 <= total {
      assert r[0] == current - 2;
    }
  }

  // ---------------------------------------------------------------------------
  // Deletion

  function IdIsNot(id: int): Contact -> bool {
    (c: Contact) => c.id != id
  }

  /** `contacts.filter((c) => c.id !== id)`. */
  function RemoveContact(contacts: seq<Contact>, id: int): (r: seq<Contact>)
    ensures |r| <= |contacts|
    ensures forall i :: 0 <= i < |r| ==> r[i] in contacts && r[i].id != id
    ensures forall i :: 0 <= i < |contacts| && contacts[i].id != id ==> contacts[i] in r
  {
    Filter(contacts, IdIsNot(id))
  }

  /** Removal keeps the other contacts in their order. */
  lemma RemoveContactAppend(a: seq<Contact>, b: seq<Contact>, id: int)
    ensures RemoveContact(a + b, id) == RemoveContact(a, id) + RemoveContact(b, id)
  {
    FilterAppend(a, b, IdIsNot(id));
  }

  /** Removing an id that no contact has changes nothing. */
  lemma RemoveAbsentIdIsNoOp(contacts: seq<Contact>, id: int)
    requires forall i :: 0 <= i < |contacts| ==> contacts[i].id != id
    ensures RemoveContact(contacts, id) == contacts
  {
    FilterKeepsAll(contacts, IdIsNot(id));
  }

  predicate UniqueIds(contacts: seq<Contact>) {
    forall i, j :: 0 <= i < j < |contacts| ==> contacts[i].id != contacts[j].id
  }

  function IdIs(id: int): Contact -> bool {
    (c: Contact) => c.id == id
  }

  /** With unique ids, exactly one contact carries an id that is present. */
  lemma {:induction false} OneContactPerId(contacts: seq<Contact>, k: nat)
    requires UniqueIds(contacts) && k < |contacts|
    ensures |Filter(contacts, IdIs(contacts[k].id))| == 1
  {
    var id := contacts[k].id;
    var rest := contacts[1..];
    assert UniqueIds(rest);
    if k == 0 {
      assert forall i :: 0 <= i < |rest| ==> !IdIs(id)(rest[i]) by {
        forall i | 0 <= i < |rest| ensures rest[i].id != id {
          assert rest[i] == contacts[i + 1];
        }
      }
      FilterDropsAll(rest, IdIs(id));
    } else {
      assert rest[k - 1] == contacts[k];
      OneContactPerId(rest, k - 1);
    }
  }

  /** With unique ids, removing the id of a listed contact shortens the list by exactly one
      and leaves that id absent from every later view. */
  lemma RemovePresentIdShrinksByOne(contacts: seq<Contact>, k: nat)
    requires UniqueIds(contacts) && k < |contacts|
    ensures |RemoveContact(contacts, contacts[k].id)| == |contacts| - 1
    ensures contacts[k] !in RemoveContact(contacts, contacts[k].id)
  {
    var id := contacts[k].id;
    OneContactPerId(contacts, k);
    FilterPartition(contacts, IdIs(id), IdIsNot(id));
  }

  // ---------------------------------------------------------------------------
  // The page component's state

  /** The state of the `ContactsList` component. */
  class ContactsList {
    var contacts: seq<Contact>
    var loading: bool
    var searchTerm: string
    var selectedCategory: string
    var currentPage: int
    var showDeleteModal: bool
    var contactToDelete: Option<Contact>
    var selectedContact: Option<Contact>

    /** Every way of setting the page yields 1 or more. */
    ghost predicate Valid()
      reads this
    {
      currentPage >= 1
    }

    constructor ()
      ensures Valid()
      ensures contacts == [] && loading
      ensures searchTerm == "" && selectedCategory == "" && currentPage == 1
      ensures !showDeleteModal && contactToDelete.None? && selectedContact.None?
    {
      contacts := [];
      loading := true;
      searchTerm := "";
      selectedCategory := "";
      currentPage := 1;
      showDeleteModal := false;
      contactToDelete := None;
      selectedContact := None;
    }

    /** The end of the simulated load: the data arrives and the spinner goes away. */
    method FinishLoading(data: seq<Contact>)
      modifies this
      ensures contacts == data && !loading
      ensures searchTerm == old(searchTerm) && selectedCategory == old(selectedCategory)
      ensures currentPage == old(currentPage) && showDeleteModal == old(showDeleteModal)
      ensures contactToDelete == old(contactToDelete) && selectedContact == old(selectedContact)
    {
      contacts := data;
      loading := false;
    }

    /** `filteredContacts`: the listed contacts that pass the current search and category. */
    function Filtered(): (r: seq<Contact>)
      reads this
      ensures forall i :: 0 <= i < |r| ==>
        r[i] in contacts && MatchesSearch(r[i], searchTerm) && MatchesCategory(r[i], selectedCategory)
      ensures forall i ::
        (0 <= i < |contacts| && MatchesSearch(contacts[i], searchTerm)
          && MatchesCategory(contacts[i], selectedCategory)) ==> contacts[i] in r
    {
      FilterContacts(contacts, searchTerm, selectedCategory)
    }

    /** `totalPages`: the fewest pages of ten that hold the filtered contacts. */
    function TotalPages(): (t: nat)
      reads this
      ensures |Filtered()| <= t * ItemsPerPage
      ensures t == 0 || (t - 1) * ItemsPerPage < |Filtered()|
    {
      PageCount(|Filtered()|)
    }

    /** `currentItems`, the rows of the table: the filtered contacts at the positions the
        "Mostrando" line names, and none once the page is past the last one. */
    function CurrentItems(): (r: seq<Contact>)
      reads this
      requires Valid()
      ensures |r| <= ItemsPerPage
      ensures currentPage <= TotalPages() ==>
        r == Filtered()[ShownFirst(currentPage) - 1..ShownLast(currentPage, |Filtered()|)]
      ensures currentPage > TotalPages() ==> r == []
    {
      PagesInRange(Filtered(), currentPage);
      if currentPage <= TotalPages() then
        ShownRangeDescribesPage(Filtered(), currentPage);
        PageItems(Filtered(), currentPage)
      else
        PageItems(Filtered(), currentPage)
    }

    /** The page buttons: `getPageNumbers()` for the current state. */
    function PageWindow(): (r: seq<int>)
      reads this
      ensures |r| == Min(MaxPagesToShow, TotalPages())
      ensures forall i :: 0 <= i < |r| ==> 1 <= r[i] <= TotalPages()
      ensures 1 <= currentPage <= TotalPages() ==> currentPage in r
    {
      PageNumbers(currentPage, TotalPages())
    }

    /** The pagination bar is drawn only after loading and when something matched. */
    predicate PaginationVisible()
      reads this
      ensures PaginationVisible() ==> TotalPages() >= 1
    {
      !loading && |Filtered()| > 0
    }

    /** Typing in the search box. */
    method SetSearchTerm(term: string)
      modifies this
      ensures Valid()
      ensures searchTerm == term && currentPage == 1
      ensures contacts == old(contacts) && loading == old(loading) && selectedCategory == old(selectedCategory)
      ensures showDeleteModal == old(showDeleteModal) && contactToDelete == old(contactToDelete)
      ensures selectedContact == old(selectedContact)
    {
      searchTerm := term;
      currentPage := 1;
    }

    /** Choosing in the category drop-down, whose options are "all categories" ("") and
        the fixed categories. */
    method SetCategory(category: string)
      requires category == "" || category in Categories
      modifies this
      ensures Valid()
      ensures selectedCategory == category && currentPage == 1
      ensures contacts == old(contacts) && loading == old(loading) && searchTerm == old(searchTerm)
      ensures showDeleteModal == old(showDeleteModal) && contactToDelete == old(contactToDelete)
      ensures selectedContact == old(selectedContact)
    {
      selectedCategory := category;
      currentPage := 1;
    }

    /** The "previous page" arrow. */
    method PreviousPage()
      requires Valid() && PaginationVisible()
      modifies this`currentPage
      ensures Valid()
      ensures currentPage == Max(1, old(currentPage) - 1)
    {
      currentPage := Max(1, currentPage - 1);
    }

    /** The "next page" arrow. */
    method NextPage()
      requires Valid() && PaginationVisible()
      modifies this`currentPage
      ensures Valid()
      ensures currentPage == Min(TotalPages(), old(currentPage) + 1)
    {
      currentPage := Min(TotalPages(), currentPage + 1);
    }

    /** A numbered page button. */
    method GoToPage(page: int)
      requires Valid() && PaginationVisible() && page in PageWindow()
      modifies this`currentPage
      ensures Valid() && currentPage == page
      ensures 1 <= currentPage <= TotalPages()
    {
      currentPage := page;
    }

    /** The bin icon of a row: remember the contact and ask for confirmation. */
    method DeleteClick(contact: Contact)
      modifies this`contactToDelete, this`showDeleteModal
      ensures contactToDelete == Some(contact) && showDeleteModal
    {
      contactToDelete := Some(contact);
      showDeleteModal := true;
    }

    /** "Excluir" in the confirmation dialog. The page number is left as it is, so it can
        end up past the last page (see PagesInRange). */
    method ConfirmDelete()
      requires showDeleteModal
      modifies this`contacts, this`showDeleteModal, this`contactToDelete
      ensures old(contactToDelete).None? ==>
        contacts == old(contacts) && showDeleteModal == old(showDeleteModal) && contactToDelete.None?
      ensures old(contactToDelete).Some? ==>
        && contacts == RemoveContact(old(contacts), old(contactToDelete).value.id)
        && !showDeleteModal && contactToDelete.None?
    {
      if contactToDelete.Some? {
        contacts := RemoveContact(contacts, contactToDelete.value.id);
        showDeleteModal := false;
        contactToDelete := None;
      }
    }

    /** "Cancelar" in the confirmation dialog: only the dialog closes. */
    method CancelDelete()
      modifies this`showDeleteModal
      ensures !showDeleteModal
    {
      showDeleteModal := false;
    }

    /** A contact's name or eye icon opens the detail modal. */
    method ViewDetails(contact: Contact)
      modifies this`selectedContact
      ensures selectedContact == Some(contact)
    {
      selectedContact := Some(contact);
    }

    /** Closing the detail modal. */
    method CloseDetails()
      modifies this`selectedContact
      ensures selectedContact.None?
    {
      selectedContact := None;
    }
  }

  /** Twelve contacts and no filter: two pages, the second holding contacts 11 and 12. */
  method SecondOfTwoPages(data: seq<Contact>)
    requires |data| == 12
  {
    var page := new ContactsList();
    page.FinishLoading(data);
    FilterWithoutCriteriaKeepsAll(data);
    assert page.TotalPages() == 2;
    assert page.PageWindow() == [1, 2];
    page.GoToPage(2);
    assert page.CurrentItems() == data[10..12];
  }

  /** Eleven contacts loaded, no search, and the second page, which holds only the last
      contact, opened from its page button. */
  method OpenSecondOfEleven(data: seq<Contact>) returns (page: ContactsList)
    requires |data| == 11
    ensures fresh(page) && page.Valid()
    ensures page.contacts == data && !page.loading && page.currentPage == 2
    ensures page.searchTerm == "" && page.selectedCategory == ""
    ensures page.CurrentItems() == [data[10]]
  {
    page := new ContactsList();
    page.FinishLoading(data);
    FilterWithoutCriteriaKeepsAll(data);
    assert page.Filtered() == data;
    assert page.TotalPages() == PageCount(11) == 2;
    assert page.PageWindow() == PageNumbers(1, 2) == [1, 2];
    page.GoToPage(2);
    assert page.CurrentItems() == PageItems(data, 2) == [data[10]];
  }

  /** Eleven contacts, the second page open and its only contact deleted: the page number
      stays 2 although one page is left, so the table shows nothing. */
  method DeleteStrandsPage(data: seq<Contact>)
    requires |data| == 11 && UniqueIds(data)
  {
    var page := OpenSecondOfEleven(data);
    page.DeleteClick(data[10]);
    page.ConfirmDelete();
    RemovePresentIdShrinksByOne(data, 10);
    var left := page.contacts;
    assert |left| == 10;
    FilterWithoutCriteriaKeepsAll(left);
    assert page.Filtered() == left;
    assert page.TotalPages() == PageCount(10) == 1;
    assert page.currentPage == 2;
    assert page.CurrentItems() == PageItems(left, 2) == [];
  }
}
