# Contact manager: list, settings, links, theme and authentication, in Dafny

This project models the logic inside the handlers of a client-side contact manager
(Next.js pages over in-memory data) and proves what those handlers promise:

- **Contact list page** (`ContactsPage`, contacts_page.dfy). The filter combines two tests.
  The search test is a case-insensitive substring match on name or e-mail, or a verbatim
  substring match on the phone. The category test passes when no category is selected or
  the contact's category is the selected one. The page also has slices of 10, the page
  count `ceil(n / 10)`, the five-wide window of page buttons, the previous and next arrows,
  and the two-step delete (pick, then confirm or cancel). The component's state is the class
  `ContactsList`.
- **Settings page** (`Settings`, settings_page.dfy). It adds a category when the trimmed
  draft name is not empty, then resets the draft. It removes categories by id. It updates
  one profile field or one notification flag at a time. The state is the class
  `SettingsPage`.
- **Contact detail modal** (`ContactDetailModal`, contact_detail_modal.dfy). It builds the
  WhatsApp link from the phone's digits and the `mailto:` link from the e-mail. It renders
  nothing without a contact.
- **Theme provider** (`Theme`, theme_provider.dfy). `hexToRgb` decodes a colour into
  `"r, g, b"`. The provider holds theme and colour with their defaults. Stored values
  override the defaults only when present and not empty. Every change is written back to
  storage, and the root element gets the `dark` class exactly for the `"dark"` theme.
  `useTheme` fails outside the provider.
- **Auth provider** (`Auth`, auth_provider.dfy). It holds the redirect rule, `login`,
  `logout`, the loading gate and the `useAuth` guard. The token store is a map and
  navigation is the list of paths pushed to the router.

Shared pieces: `Lists.Filter` models `Array.prototype.filter`, which the contact filter and
both removals use. Its lemmas cover order, counts, keep-all, drop-all and partition. `Text` holds
ASCII lowercasing, `includes`, the JavaScript `trim` whitespace set and the `\d` digit class.
`Wrappers` holds `Option`, `Result`, storage lookup and the hook guard.

Two consequences of the delete handler:

- A delete does not clamp the page. `ContactsPage.DeleteStrandsPage` shows eleven contacts
  with page 2 open; after page 2's contact is deleted, the page stays 2 with one page left
  and the table is empty.
- A delete removes every contact with that id, so the list shrinks by the number of contacts
  carrying it: by exactly one when ids are unique (`RemovePresentIdShrinksByOne`).

## Model

| member | source | states |
|---|---|---|
| Text.ToLower | app/contatos/page.tsx:58-59 | lowercasing keeps the length and maps each character through ASCII lowercasing |
| Lists.Filter | app/contatos/page.tsx:56-65 | `Array.prototype.filter`: the result is no longer than the list, holds only listed elements that pass the test, and holds every listed element that passes |
| Text.Contains | app/contatos/page.tsx:58-60 | `includes`: the needle occurs as a contiguous block somewhere in the text; every text includes `""` (`Text.ContainsEmpty`) |
| Text.ContainsEmpty | app/contatos/page.tsx:58-60 | every text includes the empty string, so an empty search term matches every name |
| Text.Trim | app/configuracoes/page.tsx:96 | `trim()`: no longer than the text, and neither end of a non-empty result is whitespace |
| Text.TrimCutsOnlyWhitespace | app/configuracoes/page.tsx:96 | `trim()` is a contiguous block of the text with only whitespace before and after it |
| Text.TrimEmptyIffAllWhitespace | app/configuracoes/page.tsx:96 | `name.trim()` is empty exactly when the name is whitespace only |
| ContactsPage.MatchesSearch | app/contatos/page.tsx:57-60 | the search test: the lowercased name or e-mail includes the lowercased term, or the phone includes the term as typed; an empty term passes every contact (`MatchesWithoutCriteria`) |
| ContactsPage.MatchesCategory | app/contatos/page.tsx:62 | the category test: no category selected, or the contact's category is the selected one |
| ContactsPage.FilterContacts | app/contatos/page.tsx:56-65 | every kept contact is from the list and passes the search and category tests; every listed contact passing both is kept |
| ContactsPage.FilterContactsAppend | app/contatos/page.tsx:56-65 | filtering keeps the original order (it distributes over concatenation) |
| ContactsPage.FilterContactsCount | app/contatos/page.tsx:56-65 | a passing contact occurs as often as in the list, a failing one never: no duplicates or omissions |
| ContactsPage.MatchesWithoutCriteria | app/contatos/page.tsx:57-62 | with empty search and no category every contact passes both tests |
| ContactsPage.FilterWithoutCriteriaKeepsAll | app/contatos/page.tsx:56-65 | empty search and no category show the whole list |
| ContactsPage.PageCount | app/contatos/page.tsx:71 | `totalPages` is the ceiling of n/10: the fewest pages of 10 that hold n items |
| ContactsPage.PageItems | app/contatos/page.tsx:68-70 | a page has at most 10 items, its length is the overlap of `[(p-1)*10, p*10)` with the list, and item i is list item `(p-1)*10+i` |
| ContactsPage.PagesUpToIsPrefix | app/contatos/page.tsx:68-71 | pages 1..k laid end to end are the first `min(10k, n)` items |
| ContactsPage.AllPagesReassemble | app/contatos/page.tsx:68-71 | pages 1..totalPages laid end to end are exactly the filtered list |
| ContactsPage.PagesInRange | app/contatos/page.tsx:68-71 | a page is non-empty exactly when it is at most totalPages; past it the "Mostrando" range runs backwards |
| ContactsPage.ShownRangeDescribesPage | app/contatos/page.tsx:293-295 | for an existing page, "Mostrando (p-1)*10+1 a min(p*10, n)" names exactly the positions of the page's items |
| ContactsPage.PageNumbers | app/contatos/page.tsx:74-85 | the window has `min(5, totalPages)` strictly consecutive numbers inside `[1, totalPages]` and contains the current page when it is in range |
| ContactsPage.ShownFirst | app/contatos/page.tsx:293 | the first "Mostrando" number; with `ShownRangeDescribesPage` it is the position of the page's first item |
| ContactsPage.ShownLast | app/contatos/page.tsx:294 | the last "Mostrando" number; with `ShownRangeDescribesPage` it is the position of the page's last item, and past the last page it is below `ShownFirst` (`PagesInRange`) |
| ContactsPage.PageWindowPosition | app/contatos/page.tsx:76-82 | the window is centred when two pages fit on each side, ends at the last page near the end, and starts at page 1 near the start |
| ContactsPage.RemoveContact | app/contatos/page.tsx:98 | removal keeps exactly the contacts whose id differs and never lengthens the list |
| ContactsPage.RemoveContactAppend | app/contatos/page.tsx:98 | removal keeps the remaining contacts in order |
| ContactsPage.RemoveAbsentIdIsNoOp | app/contatos/page.tsx:98 | removing an id no contact has changes nothing |
| ContactsPage.OneContactPerId | app/contatos/page.tsx:98 | with unique ids exactly one contact carries a present id |
| ContactsPage.RemovePresentIdShrinksByOne | app/contatos/page.tsx:96-102 | with unique ids, deleting a listed contact shortens the list by one and the contact is gone |
| ContactsPage.ContactsList.constructor | app/contatos/page.tsx:35-43 | initial state: no contacts, loading, empty search and category, page 1, no dialog, nothing selected |
| ContactsPage.ContactsList.Filtered | app/contatos/page.tsx:56-65 | `filteredContacts` of the current state: exactly the listed contacts passing the current search and category |
| ContactsPage.ContactsList.TotalPages | app/contatos/page.tsx:71 | `totalPages` of the current state: the fewest pages of 10 that hold the filtered contacts |
| ContactsPage.ContactsList.CurrentItems | app/contatos/page.tsx:67-70 | the table rows: at most 10, exactly the filtered contacts the "Mostrando" line names when the page exists, none past the last page |
| ContactsPage.ContactsList.PageWindow | app/contatos/page.tsx:74-85 | the page buttons: `min(5, totalPages)` numbers in `[1, totalPages]`, including the current page when it exists |
| ContactsPage.ContactsList.PaginationVisible | app/contatos/page.tsx:288 | the bar is drawn after loading when something matched, and then there is at least one page |
| ContactsPage.ContactsList.FinishLoading | app/contatos/page.tsx:45-53 | the loaded data replaces the list and loading ends; nothing else changes |
| ContactsPage.ContactsList.SetSearchTerm | app/contatos/page.tsx:139-142 | the term is set and the page goes back to 1; nothing else changes |
| ContactsPage.ContactsList.SetCategory | app/contatos/page.tsx:148-163 | the category, "" or one of the four drop-down options, is set and the page goes back to 1; nothing else changes |
| ContactsPage.ContactsList.PreviousPage | app/contatos/page.tsx:300-302 | the page becomes `max(1, p-1)` and stays at least 1 |
| ContactsPage.ContactsList.NextPage | app/contatos/page.tsx:320-322 | the page becomes `min(totalPages, p+1)` and stays at least 1 |
| ContactsPage.ContactsList.GoToPage | app/contatos/page.tsx:309-312 | a window button sets that page, which lies in `[1, totalPages]` |
| ContactsPage.ContactsList.DeleteClick | app/contatos/page.tsx:91-94 | the contact becomes pending and the dialog opens |
| ContactsPage.ContactsList.ConfirmDelete | app/contatos/page.tsx:96-102 | clicked only while the dialog is open (lines 335, 365); with a pending contact its id is removed, the dialog closes and nothing is pending; without one nothing changes; the page is never adjusted |
| ContactsPage.ContactsList.CancelDelete | app/contatos/page.tsx:372 | only the dialog closes; the pending contact stays |
| ContactsPage.ContactsList.ViewDetails | app/contatos/page.tsx:105-107 | the contact is selected for the detail modal |
| ContactsPage.ContactsList.CloseDetails | app/contatos/page.tsx:383 | the detail modal's contact is cleared |
| Settings.InitialCategories | app/configuracoes/page.tsx:49-54 | four initial categories with distinct ids |
| Settings.AddCategory | app/configuracoes/page.tsx:95-97 | a name with non-whitespace appends exactly one item (draft name untrimmed, draft colour, given id) after the unchanged list; a blank name changes nothing |
| Settings.DraftAfterAdd | app/configuracoes/page.tsx:96-98 | after a successful add the draft is `""` / `#4f46e5`; after a blank name it is unchanged |
| Settings.RemoveCategory | app/configuracoes/page.tsx:102-104 | removal keeps exactly the categories whose id differs |
| Settings.RemoveCategoryAppend | app/configuracoes/page.tsx:103 | removal keeps the remaining categories in order |
| Settings.RemoveAbsentCategoryIsNoOp | app/configuracoes/page.tsx:103 | removing an absent id changes nothing |
| Settings.RemoveUndoesAdd | app/configuracoes/page.tsx:95-104 | removing the fresh id of a category just added restores the list |
| Settings.WithProfileValue | app/configuracoes/page.tsx:68-71 | the named profile field takes the value; every other field and the avatar keep theirs |
| Settings.ProfileExtensionality | app/configuracoes/page.tsx:29-37 | a profile is determined by its six editable fields and its avatar |
| Settings.RewritingProfileValueIsNoOp | app/configuracoes/page.tsx:68-71 | writing a field's own value leaves the profile unchanged |
| Settings.WithFlag | app/configuracoes/page.tsx:73-76 | the named flag takes `checked`; every other flag keeps its value |
| Settings.NotificationExtensionality | app/configuracoes/page.tsx:40-46 | a notification record is determined by its five flags |
| Settings.ToggleTwiceRestores | app/configuracoes/page.tsx:73-76 | flipping a flag and flipping it back restores the record |
| Settings.SettingsPage.constructor | app/configuracoes/page.tsx:29-55 | initial categories, empty draft with colour `#4f46e5`, initial profile and notification settings |
| Settings.SettingsPage.ProfileChange | app/configuracoes/page.tsx:68-71 | exactly the named profile field changes |
| Settings.SettingsPage.NotificationsChange | app/configuracoes/page.tsx:73-76 | exactly the named flag changes |
| Settings.SettingsPage.SetNewCategoryName | app/configuracoes/page.tsx:566 | the draft's name changes, its colour does not |
| Settings.SettingsPage.SetNewCategoryColor | app/configuracoes/page.tsx:583 | the draft's colour changes, its name does not |
| Settings.SettingsPage.AddCategoryClick | app/configuracoes/page.tsx:95-100 | a non-blank draft is appended with the given id and the draft resets; a blank draft leaves list and draft unchanged |
| Settings.SettingsPage.RemoveCategoryClick | app/configuracoes/page.tsx:102-104 | the list becomes the list without that id |
| ContactDetailModal.StripNonDigits | components/contacts/contact-detail-modal.tsx:35 | the stripped phone has only '0'..'9' and is no longer than the phone |
| ContactDetailModal.StripNonDigitsCount | components/contacts/contact-detail-modal.tsx:35 | each digit occurs as often as in the phone and no other character occurs |
| ContactDetailModal.StripNonDigitsAppend | components/contacts/contact-detail-modal.tsx:35 | the digits keep their order |
| ContactDetailModal.StripNonDigitsIdempotent | components/contacts/contact-detail-modal.tsx:35 | a digits-only phone passes unchanged; stripping twice is stripping once |
| ContactDetailModal.WhatsAppLink | components/contacts/contact-detail-modal.tsx:33-37 | the link starts with `https://wa.me/` and everything after it is a digit |
| ContactDetailModal.WhatsAppLinkNumber | components/contacts/contact-detail-modal.tsx:33-37 | the number after the prefix is exactly the phone's digits |
| ContactDetailModal.MailtoLink | components/contacts/contact-detail-modal.tsx:39-41 | the link starts with `mailto:` and is 7 characters longer than the address |
| ContactDetailModal.MailtoRoundTrip | components/contacts/contact-detail-modal.tsx:39-41 | dropping `mailto:` recovers the address |
| ContactDetailModal.MailtoLinkInjective | components/contacts/contact-detail-modal.tsx:39-41 | different addresses give different links |
| ContactDetailModal.Modal | components/contacts/contact-detail-modal.tsx:22-41 | no contact renders nothing; a contact renders links to its digits and its address |
| Theme.RemoveFirst | components/theme/theme-provider.tsx:66 | a '#' in the text shortens it by one, a leading '#' drops exactly it, no '#' leaves the text as it is |
| Theme.RemoveFirstCut | components/theme/theme-provider.tsx:66 | wherever the first '#' stands, exactly that one is cut and the text around it is kept |
| Theme.PairValue | components/theme/theme-provider.tsx:69-71 | `parseInt(…, 16)` on the two characters at an offset is `16*hi + lo` (the meaning of `ParseHex` on each channel's slice) |
| Theme.ParseHexPair | components/theme/theme-provider.tsx:69-71 | two hex digits parse to `16*hi + lo`, below 256 |
| Theme.NatToDecimal | components/theme/theme-provider.tsx:73 | numbers print as non-empty decimal digits with no leading zero |
| Theme.DecimalRoundTrip | components/theme/theme-provider.tsx:73 | a printed number reads back as itself |
| Theme.DecodeHexColor | components/theme/theme-provider.tsx:64-72 | the three channels are bytes |
| Theme.FormatRgbRoundTrip | components/theme/theme-provider.tsx:73 | the `"r, g, b"` text that `FormatRgb` writes holds exactly the three numbers and reads back as the colour |
| Theme.DecodeReadsPairs | components/theme/theme-provider.tsx:64-72 | the decoded channels are the values of character pairs 0-1, 2-3 and 4-5 after the first '#' is removed |
| Theme.HexToRgb | components/theme/theme-provider.tsx:64-74 | `hexToRgb` yields text that reads back as the decoded colour; `HexToRgbReadsPairs` gives the channel values |
| Theme.HexToRgbReadsPairs | components/theme/theme-provider.tsx:64-74 | `hexToRgb` yields exactly the template literal `"r, g, b"` of the values of character pairs 0-1, 2-3 and 4-5 after the first '#' is removed, and that text reads back as those values |
| Theme.HexColorRoundTrip | components/theme/theme-provider.tsx:64-74 | every colour written `#rrggbb` or `rrggbb` decodes back to itself |
| Theme.HashIsOptional | components/theme/theme-provider.tsx:66 | the leading '#' is optional: with and without it the result is the same |
| Theme.Preference | components/theme/theme-provider.tsx:24-35 | a stored value replaces the current one only when present and not empty |
| Theme.PreferencesSurviveReload | components/theme/theme-provider.tsx:24-40 | a non-empty theme and colour that were written back come back on the next mount |
| Theme.UseTheme | components/theme/theme-provider.tsx:97-103 | outside a provider it fails with the provider message; inside it returns the context |
| Theme.ThemeProvider.constructor | components/theme/theme-provider.tsx:20-21 | the theme starts `"light"` and the colour `#4f46e5` |
| Theme.ThemeProvider.WriteBack | components/theme/theme-provider.tsx:38-49 | storage gets the current theme and colour, and the dark class is on exactly for `"dark"` |
| Theme.ThemeProvider.Mount | components/theme/theme-provider.tsx:23-49 | stored non-empty values override the defaults, then storage and the dark class agree with the state |
| Theme.ThemeProvider.SetTheme | components/theme/theme-provider.tsx:37-49 | the theme changes, the colour does not, and storage and the dark class follow |
| Theme.ThemeProvider.SetPrimaryColor | components/theme/theme-provider.tsx:37-49 | the colour changes, the theme does not, and storage follows |
| Auth.HasToken | components/auth/auth-provider.tsx:25 | `!!token`: a token counts only when present and not empty |
| Auth.RedirectTarget | components/auth/auth-provider.tsx:28-33 | without a non-empty token and away from /login it goes to /login; with one at /login it goes to /dashboard; otherwise it stays |
| Auth.RedirectIsFinal | components/auth/auth-provider.tsx:29-33 | at the redirect target, with the same token, no further redirect happens |
| Auth.RedirectLeaves | components/auth/auth-provider.tsx:29-33 | a redirect never targets the current path |
| Auth.Pushes | components/auth/auth-provider.tsx:29-33 | a check pushes at most one path, and exactly the redirect target when there is one |
| Wrappers.Lookup | components/auth/auth-provider.tsx:24 | `localStorage.getItem`: a value exactly when the key is stored, and then the stored value |
| Auth.UseAuth | components/auth/auth-provider.tsx:59-65 | outside a provider it fails with the provider message; inside it returns the context |
| Auth.AuthProvider.constructor | components/auth/auth-provider.tsx:17-18 | not authenticated, loading, no children rendered |
| Auth.AuthProvider.CheckAuth | components/auth/auth-provider.tsx:22-34 | authenticated exactly when the stored token is non-empty; loading ends and children render; the redirect target, if any, is pushed |
| Auth.AuthProvider.RendersChildren | components/auth/auth-provider.tsx:48-56 | children are rendered only when loading is over: never before the first check (constructor), always after it (`CheckAuth`) |
| Auth.AuthProvider.Login | components/auth/auth-provider.tsx:36-40 | the token is stored, the user is authenticated and /dashboard is pushed |
| Auth.AuthProvider.Logout | components/auth/auth-provider.tsx:42-46 | the token is removed, the user is signed out and /login is pushed |

## Left out

- Markup, styling and icons: presentation only.
- The dashboard and reports pages, the layout shells, the sidebar and the loading page:
  chart glue over static data and menu toggles.
- The contact create/edit page and its form validation (app/contatos/[id]/page.tsx) are not
  part of this model.
- `adjustColorBrightness`: floating-point scaling, `Math.round` and hex re-encoding.
- The CSS variables the theme effect sets on the root element (`--primary-color`,
  `--primary-rgb` and the two brightness variants). Only the `dark` class is modelled.
- Browser I/O. `localStorage` is a `map<string, string>`. The router is a list of pushed
  paths; a push does not re-run the auth check, so the caller calls `CheckAuth` again at the
  new path. The clipboard copy, its "Copiado!" reset and the `FileReader` avatar upload are
  left out.
- Timers. The simulated load is `FinishLoading` with the data as a parameter. The
  save/export/import toasts of the settings page are left out.
- Non-deterministic inputs. The random mock contacts become an arbitrary contact list. The
  `Date.now()` id of a new category is a parameter.
- Settings state that only a plain setter touches (active tab, success toast, language, date
  format, time zone, security and backup checkboxes): it has no logic.
- `Settings.SettingsPage.ProfileChange`: the field name is one of the six editable inputs, so
  a name outside that set, which would add a new key to the object, is not modelled.
- `Text.ToLower`: lowercases ASCII letters only; full Unicode `toLowerCase` is not modelled.
- `Theme.DecodeHexColor`: requires six hex digits after the first '#' is removed. On other
  input `parseInt` yields NaN or reads a prefix, and that output is not modelled.
- `Theme.HexToRgb`: carries the same requirement of six hex digits after the first '#' is
  removed. The NaN text `hexToRgb` would print for other input is not modelled.
- `Theme.ThemeProvider.Mount`: runs the load and then one write-back. On the first render
  React also writes the defaults back before the stored values re-render. That write is
  overwritten at once and is not modelled.
- `ContactsPage.ContactsList.PreviousPage` and `ContactsPage.ContactsList.NextPage`: the
  `disabled` state of the arrows is not a precondition. Clicking a disabled arrow (page 1,
  or the last page) would leave the page unchanged anyway.
- `Auth.AuthProvider.Login`: `login("")` marks the user authenticated. The next check at
  /dashboard treats the empty token as absent and sends the user back to /login
  (`Auth.LoginThenCheck`). The model keeps this behaviour.
