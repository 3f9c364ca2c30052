/** The settings page: the user-defined contact categories, and the profile and
    notification records edited field by field. */
module Settings {
  import opened Lists
  import opened Text

  const DefaultCategoryColor := "#4f46e5"

  datatype CategoryItem = CategoryItem(id: string, name: string, color: string)

  /** The "new category" form. */
  datatype CategoryDraft = CategoryDraft(name: string, color: string)

  function InitialCategories(): (r: seq<CategoryItem>)
    ensures |r| == 4
    ensures forall i, j :: 0 <= i < j < |r| ==> r[i].id != r[j].id
  {
    [ CategoryItem("1", "Cliente", "#4f46e5"),
      CategoryItem("2", "Fornecedor", "#0891b2"),
      CategoryItem("3", "Parceiro", "#16a34a"),
      CategoryItem("4", "Prospect", "#f59e0b") ]
  }

  function EmptyDraft(): CategoryDraft {
    CategoryDraft("", DefaultCategoryColor)
  }

  /** `handleAddCategory` on the list: when the trimmed draft name is not empty, one item
      with the draft's name and colour and the id `id` is appended. Names may repeat. */
  function AddCategory(categories: seq<CategoryItem>, draft: CategoryDraft, id: string): (r: seq<CategoryItem>)
    ensures AllWhitespace(draft.name) ==> r == categories
    ensures !AllWhitespace(draft.name) ==>
      && |r| == |categories| + 1
      && r[..|categories|] == categories
      && r[|categories|] == CategoryItem(id, draft.name, draft.color)
  {
    TrimEmptyIffAllWhitespace(draft.name);
    if Trim(draft.name) != "" then categories + [CategoryItem(id, draft.name, draft.color)]
    else categories
  }

  /** `handleAddCategory` on the form: a successful add resets it, otherwise it is kept. */
  function DraftAfterAdd(draft: CategoryDraft): (d: CategoryDraft)
    ensures AllWhitespace(draft.name) ==> d == draft
    ensures !AllWhitespace(draft.name) ==> d.name == "" && d.color == DefaultCategoryColor
  {
    TrimEmptyIffAllWhitespace(draft.name);
    if Trim(draft.name) != "" then EmptyDraft() else draft
  }

  function IdIsNot(id: string): CategoryItem -> bool {
    (c: CategoryItem) => c.id != id
  }

  /** `handleRemoveCategory`: `categories.filter((cat) => cat.id !== id)`. */
  function RemoveCategory(categories: seq<CategoryItem>, id: string): (r: seq<CategoryItem>)
    ensures |r| <= |categories|
    ensures forall i :: 0 <= i < |r| ==> r[i] in categories && r[i].id != id
    ensures forall i :: 0 <= i < |categories| && categories[i].id != id ==> categories[i] in r
  {
    Filter(categories, IdIsNot(id))
  }

  /** Removal keeps the remaining categories in their order. */
  lemma RemoveCategoryAppend(a: seq<CategoryItem>, b: seq<CategoryItem>, id: string)
    ensures RemoveCategory(a + b, id) == RemoveCategory(a, id) + RemoveCategory(b, id)
  {
    FilterAppend(a, b, IdIsNot(id));
  }

  /** Removing an id no category has leaves the list as it was. */
  lemma RemoveAbsentCategoryIsNoOp(categories: seq<CategoryItem>, id: string)
    requires forall i :: 0 <= i < |categories| ==> categories[i].id != id
    ensures RemoveCategory(categories, id) == categories
  {
    FilterKeepsAll(categories, IdIsNot(id));
  }

  /** A category just added with a fresh id is the one item removing that id takes away. */
  lemma RemoveUndoesAdd(categories: seq<CategoryItem>, draft: CategoryDraft, id: string)
    requires forall i :: 0 <= i < |categories| ==> categories[i].id != id
    ensures RemoveCategory(AddCategory(categories, draft, id), id) == categories
  {
    var added := AddCategory(categories, draft, id);
    if !AllWhitespace(draft.name) {
      assert added == categories + [added[|categories|]];
      RemoveCategoryAppend(categories, [added[|categories|]], id);
      assert RemoveCategory([added[|categories|]], id) == [];
    }
    RemoveAbsentCategoryIsNoOp(categories, id);
  }

  // ---------------------------------------------------------------------------
  // Profile and notification records

  datatype ProfileSettings = ProfileSettings(
    name: string,
    email: string,
    phone: string,
    currentPassword: string,
    newPassword: string,
    confirmPassword: string,
    avatar: string)

  /** The `name` attributes of the inputs wired to `handleProfileChange`. */
  datatype ProfileField = Name | Email | Phone | CurrentPassword | NewPassword | ConfirmPassword

  function InitialProfile(): ProfileSettings {
    ProfileSettings("João Silva", "joao.silva@exemplo.com", "(11) 98765-4321", "", "", "", "/avatar-default.png")
  }

  function ProfileValue(p: ProfileSettings, f: ProfileField): string {
    match f
    case Name => p.name
    case Email => p.email
    case Phone => p.phone
    case CurrentPassword => p.currentPassword
    case NewPassword => p.newPassword
    case ConfirmPassword => p.confirmPassword
  }

  /** `{ ...prev, [name]: value }`: the named field takes the value, every other field and
      the avatar keep theirs. */
  function WithProfileValue(p: ProfileSettings, f: ProfileField, value: string): (r: ProfileSettings)
    ensures ProfileValue(r, f) == value
    ensures forall g :: g != f ==> ProfileValue(r, g) == ProfileValue(p, g)
    ensures r.avatar == p.avatar
  {
    match f
    case Name => p.(name := value)
    case Email => p.(email := value)
    case Phone => p.(phone := value)
    case CurrentPassword => p.(currentPassword := value)
    case NewPassword => p.(newPassword := value)
    case ConfirmPassword => p.(confirmPassword := value)
  }

  /** Two profiles with the same avatar and the same value in every field are the same. */
  lemma ProfileExtensionality(p: ProfileSettings, q: ProfileSettings)
    requires p.avatar == q.avatar
    requires forall f :: ProfileValue(p, f) == ProfileValue(q, f)
    ensures p == q
  {
    assert ProfileValue(p, Name) == ProfileValue(q, Name);
    assert ProfileValue(p, Email) == ProfileValue(q, Email);
    assert ProfileValue(p, Phone) == ProfileValue(q, Phone);
    assert ProfileValue(p, CurrentPassword) == ProfileValue(q, CurrentPassword);
    assert ProfileValue(p, NewPassword) == ProfileValue(q, NewPassword);
    assert ProfileValue(p, ConfirmPassword) == ProfileValue(q, ConfirmPassword);
  }

  /** Typing the value a field already holds leaves the profile as it was. */
  lemma RewritingProfileValueIsNoOp(p: ProfileSettings, f: ProfileField)
    ensures WithProfileValue(p, f, ProfileValue(p, f)) == p
  {
    ProfileExtensionality(WithProfileValue(p, f, ProfileValue(p, f)), p);
  }

  datatype NotificationSettings = NotificationSettings(
    emailNotifications: bool,
    newContactNotification: bool,
    reminderNotification: bool,
    marketingEmails: bool,
    smsNotifications: bool)

  /** The `name` attributes of the checkboxes wired to `handleNotificationsChange`. */
  datatype NotificationFlag =
    EmailNotifications | NewContactNotification | ReminderNotification | MarketingEmails | SmsNotifications

  function InitialNotifications(): NotificationSettings {
    NotificationSettings(true, true, true, false, false)
  }

  function FlagValue(n: NotificationSettings, f: NotificationFlag): bool {
    match f
    case EmailNotifications => n.emailNotifications
    case NewContactNotification => n.newContactNotification
    case ReminderNotification => n.reminderNotification
    case MarketingEmails => n.marketingEmails
    case SmsNotifications => n.smsNotifications
  }

  /** `{ ...prev, [name]: checked }`: the named flag takes `checked`, the others keep theirs. */
  function WithFlag(n: NotificationSettings, f: NotificationFlag, checked: bool): (r: NotificationSettings)
    ensures FlagValue(r, f) == checked
    ensures forall g :: g != f ==> FlagValue(r, g) == FlagValue(n, g)
  {
    match f
    case EmailNotifications => n.(emailNotifications := checked)
    case NewContactNotification => n.(newContactNotification := checked)
    case ReminderNotification => n.(reminderNotification := checked)
    case MarketingEmails => n.(marketingEmails := checked)
    case SmsNotifications => n.(smsNotifications := checked)
  }

  /** Two notification records that agree on every flag are the same. */
  lemma NotificationExtensionality(n: NotificationSettings, m: NotificationSettings)
    requires forall f :: FlagValue(n, f) == FlagValue(m, f)
    ensures n == m
  {
    assert FlagValue(n, EmailNotifications) == FlagValue(m, EmailNotifications);
    assert FlagValue(n, NewContactNotification) == FlagValue(m, NewContactNotification);
    assert FlagValue(n, ReminderNotification) == FlagValue(m, ReminderNotification);
    assert FlagValue(n, MarketingEmails) == FlagValue(m, MarketingEmails);
    assert FlagValue(n, SmsNotifications) == FlagValue(m, SmsNotifications);
  }

  /** Ticking a box and then unticking it (or the reverse) restores the record. */
  lemma ToggleTwiceRestores(n: NotificationSettings, f: NotificationFlag)
    ensures WithFlag(WithFlag(n, f, !FlagValue(n, f)), f, FlagValue(n, f)) == n
  {
    NotificationExtensionality(WithFlag(WithFlag(n, f, !FlagValue(n, f)), f, FlagValue(n, f)), n);
  }

  // ---------------------------------------------------------------------------
  // The page component's state

  /** The state of the `Settings` component that its handlers update. */
  class SettingsPage {
    var categories: seq<CategoryItem>
    var newCategory: CategoryDraft
    var profileSettings: ProfileSettings
    var notificationsSettings: NotificationSettings

    constructor ()
      ensures categories == InitialCategories()
      ensures newCategory == CategoryDraft("", DefaultCategoryColor)
      ensures profileSettings == InitialProfile()
      ensures notificationsSettings == InitialNotifications()
    {
      categories := InitialCategories();
      newCategory := EmptyDraft();
      profileSettings := InitialProfile();
      notificationsSettings := InitialNotifications();
    }

    /** `handleProfileChange` for the input named `field`. */
    method ProfileChange(field: ProfileField, value: string)
      modifies this`profileSettings
      ensures ProfileValue(profileSettings, field) == value
      ensures forall g :: g != field ==> ProfileValue(profileSettings, g) == ProfileValue(old(profileSettings), g)
      ensures profileSettings.avatar == old(profileSettings).avatar
    {
      profileSettings := WithProfileValue(profileSettings, field, value);
    }

    /** `handleNotificationsChange` for the checkbox named `flag`. */
    method NotificationsChange(flag: NotificationFlag, checked: bool)
      modifies this`notificationsSettings
      ensures FlagValue(notificationsSettings, flag) == checked
      ensures forall g :: g != flag ==> FlagValue(notificationsSettings, g) == FlagValue(old(notificationsSettings), g)
    {
      notificationsSettings := WithFlag(notificationsSettings, flag, checked);
    }

    /** Typing in the "new category" name box. */
    method SetNewCategoryName(name: string)
      modifies this`newCategory
      ensures newCategory == old(newCategory).(name := name)
    {
      newCategory := newCategory.(name := name);
    }

    /** Picking the "new category" colour. */
    method SetNewCategoryColor(color: string)
      modifies this`newCategory
      ensures newCategory == old(newCategory).(color := color)
    {
      newCategory := newCategory.(color := color);
    }

    /** `handleAddCategory`; `id` is the `Date.now()` reading, as a string. */
    method AddCategoryClick(id: string)
      modifies this`categories, this`newCategory
      ensures AllWhitespace(old(newCategory).name) ==>
        categories == old(categories) && newCategory == old(newCategory)
      ensures !AllWhitespace(old(newCategory).name) ==>
        && categories == old(categories) + [CategoryItem(id, old(newCategory).name, old(newCategory).color)]
        && newCategory == CategoryDraft("", DefaultCategoryColor)
    {
      categories := AddCategory(categories, newCategory, id);
      newCategory := DraftAfterAdd(newCategory);
    }

    /** `handleRemoveCategory`. */
    method RemoveCategoryClick(id: string)
      modifies this`categories
      ensures categories == RemoveCategory(old(categories), id)
    {
      categories := RemoveCategory(categories, id);
    }
  }
}
