# Talawa admin: component logic in Dafny

This project models the local, sequential logic of the Talawa admin web
front end and proves what its components promise. The modelled parts are:

- the editable image widget;
- the avatar generator's parameters;
- the session-timeout setting;
- the backup and security settings;
- the community profile form;
- the organisation update form;
- the member detail form;
- the community settings tabs;
- the pre-commit hook that refuses direct `localStorage` calls.

The network never appears in the model. Each GraphQL mutation, REST request
or `onSave`/`onDelete` promise is an `Outcome` input saying how the awaited
call settled:

- `Resolved(truthy)`: it resolved with a truthy or a falsy value;
- `Rejected`: it threw.

An asynchronous file read is split into two events: the pick and the read's
completion, which carries the read result.

Stateful components are classes whose fields are the component state; each
event handler is a method that states the whole new state. The parts that
only compute are functions and lemmas.

| file | module |
|---|---|
| `common.dfy` | `Common`: `Option`, JavaScript truthiness, `\|\|` and `?? ''` on optional strings, `Outcome`, `File` |
| `editable_image.dfy` | `EditableImage` |
| `avatar.dfy` | `Avatar` |
| `update_timeout.dfy` | `UpdateTimeout` |
| `security_settings.dfy` | `SecuritySettings` |
| `community_profile.dfy` | `CommunityProfile` |
| `org_update.dfy` | `OrgUpdate` |
| `member_detail.dfy` | `MemberDetail` |
| `community_settings.dfy` | `CommunitySettings` |
| `localstorage_check.dfy` | `LocalStorageCheck` |

Behaviour of the image widget worth noting (`EditableImage.tsx` lines 60-71,
73-79 and 169-200):

- **Closing the image modal.** Closing from the header or the close button
  only hides the modal; an edit in progress is not reverted
  (`EditableImage.CloseWhileEditingScenario`).
- **Saving an image.** `handleSave` does not clear `selectedImage`.
- **Picking a file.** `selectedImage` is set only when the file read
  completes, while `isEditing` is set at the pick. So "a file is pending
  exactly while editing" does not hold between the pick and the read's
  completion.
- **Save and delete while a call is in flight.** No handler guards against
  a second click during an outstanding call.

## Model

| member | source | states |
|---|---|---|
| Common.OrElse | src/screens/MemberDetail/MemberDetail.tsx:53 | `a \|\| b`: the result is truthy iff either operand is; it is the first operand when that one is truthy, otherwise the second |
| Common.OrEmpty | src/components/Community/CommunityProfile/CommunityProfile.tsx:93-103 | `a ?? ''`: a present value (even "") is kept, an absent one becomes "" |
| EditableImage.Thumbnail | src/components/EditableImage/EditableImage.tsx:101-114 | the slot shows the image iff `src` is truthy; otherwise a placeholder avatar with the widget's size and shape iff `name` is truthy; otherwise nothing |
| EditableImage.ModalPicture | src/components/EditableImage/EditableImage.tsx:116-134 | the modal shows the preview iff `previewUrl` is truthy; otherwise an xl avatar iff `name` is truthy; otherwise nothing |
| EditableImage.Footer | src/components/EditableImage/EditableImage.tsx:146-174 | delete shown iff `src` is truthy, `onDelete` is given and not editing; edit and close shown iff not editing; cancel shown iff editing; save iff editing without `showContinue`, continue iff editing with it; exactly two buttons while editing; close is last otherwise |
| EditableImage.Widget.constructor | src/components/EditableImage/EditableImage.tsx:31-58 | prop defaults (size md, shape circle, `showContinue` false), all five state fields at their initial values, and a truthy `src` copied into the preview on mount |
| EditableImage.Widget.SetSource | src/components/EditableImage/EditableImage.tsx:54-58 | a changed truthy `src` is copied into `previewUrl`; a falsy or unchanged one leaves it as it was |
| EditableImage.Widget.MouseEnter | src/components/EditableImage/EditableImage.tsx:184 | only `isHovering` changes, to true |
| EditableImage.Widget.MouseLeave | src/components/EditableImage/EditableImage.tsx:185 | only `isHovering` changes, to false |
| EditableImage.Widget.ClickThumbnail | src/components/EditableImage/EditableImage.tsx:186 | only `showModal` changes, to true |
| EditableImage.Widget.Close | src/components/EditableImage/EditableImage.tsx:169-200 | the close button and the modal's `onHide` only set `showModal` to false |
| EditableImage.Widget.PickFile | src/components/EditableImage/EditableImage.tsx:60-71 | a picked file sets `isEditing` at once and changes nothing else; picking nothing changes nothing |
| EditableImage.Widget.ReadCompleted | src/components/EditableImage/EditableImage.tsx:64-67 | when the read completes, the preview becomes its result and the file becomes the selection |
| EditableImage.Widget.HandleSave | src/components/EditableImage/EditableImage.tsx:73-79 | with no selection nothing happens; otherwise `onSave` receives the selected file, and when it settles without throwing the modal closes and editing ends |
| EditableImage.Widget.HandleDelete | src/components/EditableImage/EditableImage.tsx:81-87 | without `onDelete` nothing happens; otherwise it is called, and when it settles without throwing the preview is cleared and the modal closes; `isEditing` is untouched |
| EditableImage.Widget.HandleCancel | src/components/EditableImage/EditableImage.tsx:95-99 | the preview goes back to `src`, editing ends and the selection is cleared; `showModal` keeps its value and the footer returns to its non-editing buttons |
| Avatar.PixelsStrictlyIncreasing | src/components/Avatar/Avatar.tsx:36-42 | the size map xs 44, sm 64, md 96, lg 160, xl 200 grows strictly in that order, so it is injective |
| Avatar.Radius | src/components/Avatar/Avatar.tsx:48 | the radius is 50 iff circle, 8 iff rounded, 0 iff square |
| Avatar.Options | src/components/Avatar/Avatar.tsx:44-50 | the generator gets the name as seed, the mapped pixel size and the radius |
| Avatar.ImageDeterminedByOptions | src/components/Avatar/Avatar.tsx:44-50 | the options determine name, size and shape back; the image depends only on the name, the mapped size and the radius |
| Avatar.Capitalize | src/components/Avatar/Avatar.tsx:55 | the first character is upper-cased and the rest kept, with the length unchanged |
| Avatar.SizeClass | src/components/Avatar/Avatar.tsx:55 | the size class is "avatar" followed by an upper-case letter and a lower-case letter |
| Avatar.SizeClassesDistinct | src/components/Avatar/Avatar.tsx:55 | distinct size keys give distinct size classes |
| Avatar.ClassTokens | src/components/Avatar/Avatar.tsx:54-60 | the base and size classes come first; among the generated tokens `avatarSquare` appears iff the shape is square and `avatarRounded` iff rounded; a truthy custom style is the last token, and the count of tokens follows |
| Avatar.JoinSpacedStartsWithFirst | src/components/Avatar/Avatar.tsx:55-59 | joining class tokens with spaces keeps the first token as a prefix |
| Avatar.ClassName | src/components/Avatar/Avatar.tsx:54-60 | the class attribute always starts with the base class and the size class |
| Avatar.NeverSquareAndRounded | src/components/Avatar/Avatar.tsx:56-58 | `avatarSquare` and `avatarRounded` are never both present, unless the custom style is one of them |
| Avatar.WithDefaults | src/components/Avatar/Avatar.tsx:28-35 | alt defaults to "Dummy Avatar", size to md and shape to circle; the test id is `dataTestId \|\| ''` |
| UpdateTimeout.RoundToFive | src/components/UpdateTimeout/UpdateTimeout.tsx:37-38 | the rounded timeout is a multiple of five within two minutes of the loaded one |
| UpdateTimeout.NearestMultipleIsUnique | src/components/UpdateTimeout/UpdateTimeout.tsx:38 | every multiple of five within two of the input is the rounded value, so rounding picks the nearest one |
| UpdateTimeout.RoundingIdempotent | src/components/UpdateTimeout/UpdateTimeout.tsx:38 | a multiple of five (30, 0) is unchanged, and rounding twice is rounding once |
| UpdateTimeout.Label | src/components/UpdateTimeout/UpdateTimeout.tsx:81-87 | "no timeout set" is shown iff the current timeout is 0, the minute count otherwise |
| UpdateTimeout.Settings.constructor | src/components/UpdateTimeout/UpdateTimeout.tsx:22-23 | the slider starts at 15 and the current timeout at 30 |
| UpdateTimeout.Settings.Loaded | src/components/UpdateTimeout/UpdateTimeout.tsx:35-42 | loaded data sets both the current timeout and the slider to the rounded value, so they are equal; no data changes nothing |
| UpdateTimeout.Settings.SlideTo | src/components/UpdateTimeout/UpdateTimeout.tsx:49-54 | moving the slider changes only the slider value |
| UpdateTimeout.Settings.Update | src/components/UpdateTimeout/UpdateTimeout.tsx:56-71 | the slider value is sent; only a truthy result commits it as the current timeout, and a failure leaves the current timeout as it was |
| SecuritySettings.ToggleSelection | src/components/Community/CommunitySecuritySettings/CommunitySecuritySettings.tsx:159-161 | selecting the selected backup clears the selection; selecting any other backup selects it |
| SecuritySettings.ToggleTwice | src/components/Community/CommunitySecuritySettings/CommunitySecuritySettings.tsx:159-161 | selecting the same backup twice restores the prior selection iff it was empty or that backup; otherwise it ends empty |
| SecuritySettings.AtMostOneChecked | src/components/Community/CommunitySecuritySettings/CommunitySecuritySettings.tsx:254 | two checked rows are the same backup |
| SecuritySettings.ActionDisabled | src/components/Community/CommunitySecuritySettings/CommunitySecuritySettings.tsx:267-274 | restore and delete are enabled iff a truthy backup id is selected and that mutation is not loading |
| SecuritySettings.ScheduleVariables | src/components/Community/CommunitySecuritySettings/CommunitySecuritySettings.tsx:89-96 | a recurring request carries type, frequency and time and no date; a one-time request carries type, date and time and no frequency |
| SecuritySettings.Settings.constructor | src/components/Community/CommunitySecuritySettings/CommunitySecuritySettings.tsx:41-51 | no selection, encryption off, modal hidden, one-time, daily, date "" and time "00:00" |
| SecuritySettings.Settings.SelectBackup | src/components/Community/CommunitySecuritySettings/CommunitySecuritySettings.tsx:159-161 | the selection becomes its toggle by the clicked id |
| SecuritySettings.Settings.Restore | src/components/Community/CommunitySecuritySettings/CommunitySecuritySettings.tsx:112-131 | with no truthy selection nothing is sent and nothing changes; otherwise the selected id is sent, a truthy result clears the selection, a falsy result or an error keeps it |
| SecuritySettings.Settings.Delete | src/components/Community/CommunitySecuritySettings/CommunitySecuritySettings.tsx:133-152 | the same guard and effect on the selection as restore, with the delete mutation |
| SecuritySettings.Settings.OpenScheduleModal | src/components/Community/CommunitySecuritySettings/CommunitySecuritySettings.tsx:178 | the schedule modal opens |
| SecuritySettings.Settings.CloseScheduleModal | src/components/Community/CommunitySecuritySettings/CommunitySecuritySettings.tsx:302-303 | the modal's hide and cancel close it |
| SecuritySettings.Settings.SetScheduleType | src/components/Community/CommunitySecuritySettings/CommunitySecuritySettings.tsx:314-318 | only the schedule type changes |
| SecuritySettings.Settings.SetScheduleFrequency | src/components/Community/CommunitySecuritySettings/CommunitySecuritySettings.tsx:327-331 | only the frequency changes |
| SecuritySettings.Settings.SetScheduleDate | src/components/Community/CommunitySecuritySettings/CommunitySecuritySettings.tsx:345 | only the date changes |
| SecuritySettings.Settings.SetScheduleTime | src/components/Community/CommunitySecuritySettings/CommunitySecuritySettings.tsx:354 | only the time changes |
| SecuritySettings.Settings.ScheduleBackup | src/components/Community/CommunitySecuritySettings/CommunitySecuritySettings.tsx:87-110 | the request is built from the form; the modal closes only on a truthy result |
| SecuritySettings.Settings.ToggleEncryption | src/components/Community/CommunitySecuritySettings/CommunitySecuritySettings.tsx:154-157 | the encryption flag is negated, so two toggles restore it |
| CommunityProfile.With | src/components/Community/CommunityProfile/CommunityProfile.tsx:112-117 | the named field takes the value and every other field is unchanged |
| CommunityProfile.FieldsDetermineProfile | src/components/Community/CommunityProfile/CommunityProfile.tsx:68-80 | two profiles that agree on all eleven fields are equal |
| CommunityProfile.WithLaws | src/components/Community/CommunityProfile/CommunityProfile.tsx:112-117 | writing a field's own value changes nothing, and the later of two writes to one field wins |
| CommunityProfile.IsDisabled | src/components/Community/CommunityProfile/CommunityProfile.tsx:229-239 | the buttons are disabled iff name, website link and logo are all empty |
| CommunityProfile.SocialFieldsIrrelevant | src/components/Community/CommunityProfile/CommunityProfile.tsx:229-239 | editing a social-media field never changes whether the buttons are disabled |
| CommunityProfile.ResetDisables | src/components/Community/CommunityProfile/CommunityProfile.tsx:198-210 | the reset profile has all eleven fields empty, and it disables the buttons |
| CommunityProfile.OnlyXIsRenamed | src/components/Community/CommunityProfile/CommunityProfile.tsx:96-103 | among the social fields, only X is sent under a different key from the one it is loaded from |
| CommunityProfile.Load | src/components/Community/CommunityProfile/CommunityProfile.tsx:88-105 | every field is copied from the loaded data (`gitHub` to github, `youTube` to youtube), and an absent value becomes "" |
| CommunityProfile.Payload | src/components/Community/CommunityProfile/CommunityProfile.tsx:145-162 | name, website link and logo are kept; the social URLs go out under exactly the eight submit keys, with X sent as "twitter"; the file is attached iff one was selected |
| CommunityProfile.LoadThenSubmit | src/components/Community/CommunityProfile/CommunityProfile.tsx:88-162 | loading and submitting unedited sends every loaded social URL (or "") under its field's submit key; the value loaded from "X" goes out as "twitter" |
| CommunityProfile.Form.constructor | src/components/Community/CommunityProfile/CommunityProfile.tsx:68-84 | all fields empty and no image, so the buttons start disabled |
| CommunityProfile.Form.Loaded | src/components/Community/CommunityProfile/CommunityProfile.tsx:88-105 | loaded data replaces the profile; no data changes nothing |
| CommunityProfile.Form.HandleOnChange | src/components/Community/CommunityProfile/CommunityProfile.tsx:112-117 | only the named field changes |
| CommunityProfile.Form.HandleImageChange | src/components/Community/CommunityProfile/CommunityProfile.tsx:124-133 | the file is recorded, and the logo becomes the encoded text, or "" when the encoder gives nothing |
| CommunityProfile.Form.ResetData | src/components/Community/CommunityProfile/CommunityProfile.tsx:194-222 | all eleven fields are cleared whatever the mutation's outcome, disabling the buttons; the mutation carries the loaded community's id, or none when nothing was loaded or the id is null |
| CommunityProfile.Form.Submit | src/components/Community/CommunityProfile/CommunityProfile.tsx:140-162 | the posted payload is built from the form, with a file iff one is selected |
| OrgUpdate.With | src/components/OrgSettings/General/OrgUpdate/OrgUpdate.tsx:65-73 | the named address key takes the value and the other seven keys are unchanged |
| OrgUpdate.EditsCommute | src/components/OrgSettings/General/OrgUpdate/OrgUpdate.tsx:65-73 | edits of two different address keys commute |
| OrgUpdate.SaveVariables | src/components/OrgSettings/General/OrgUpdate/OrgUpdate.tsx:129-147 | the mutation carries the id, name, description and both switches, and all eight address keys unchanged |
| OrgUpdate.PreviewModalRendered | src/components/OrgSettings/General/OrgUpdate/OrgUpdate.tsx:405 | the preview modal is rendered iff it is to be shown and the preview URL is truthy |
| OrgUpdate.Form.constructor | src/components/OrgSettings/General/OrgUpdate/OrgUpdate.tsx:40-77 | empty name, description and address, no image, no preview, modal hidden, both switches off |
| OrgUpdate.Form.Loaded | src/components/OrgSettings/General/OrgUpdate/OrgUpdate.tsx:104-121 | the organisation fills name, description, address and both switches |
| OrgUpdate.Form.SetName | src/components/OrgSettings/General/OrgUpdate/OrgUpdate.tsx:240-245 | only the name changes |
| OrgUpdate.Form.SetDescription | src/components/OrgSettings/General/OrgUpdate/OrgUpdate.tsx:254-259 | only the description changes |
| OrgUpdate.Form.HandleInputChange | src/components/OrgSettings/General/OrgUpdate/OrgUpdate.tsx:65-73 | only the named address key changes; name, description and the other keys are unchanged |
| OrgUpdate.Form.ToggleRegistrationRequired | src/components/OrgSettings/General/OrgUpdate/OrgUpdate.tsx:365-369 | only the registration switch flips |
| OrgUpdate.Form.ToggleVisibleInSearch | src/components/OrgSettings/General/OrgUpdate/OrgUpdate.tsx:379 | only the visibility switch flips |
| OrgUpdate.Form.SaveChanges | src/components/OrgSettings/General/OrgUpdate/OrgUpdate.tsx:127-156 | the mutation's variables are built from the form; its result changes no form state |
| OrgUpdate.Form.HandleImageChange | src/components/OrgSettings/General/OrgUpdate/OrgUpdate.tsx:158-171 | a picked file is recorded at once; picking nothing changes nothing |
| OrgUpdate.Form.ReadCompleted | src/components/OrgSettings/General/OrgUpdate/OrgUpdate.tsx:164-167 | the preview takes the read result and the modal is asked to open; it is rendered iff the result is truthy |
| OrgUpdate.Form.HandleSaveImage | src/components/OrgSettings/General/OrgUpdate/OrgUpdate.tsx:173-204 | with no selection nothing is sent; an ok response closes the modal and clears the selection; a failure or an error changes nothing |
| OrgUpdate.Form.HandleCancelImage | src/components/OrgSettings/General/OrgUpdate/OrgUpdate.tsx:206-210 | preview and selection are cleared and the modal closes, so it is not rendered |
| MemberDetail.With | src/screens/MemberDetail/MemberDetail.tsx:124-136 | the named field takes the value; every other field and the plugin switch are unchanged |
| MemberDetail.TrimStartEmpty | src/screens/MemberDetail/MemberDetail.tsx:223 | stripping leading white space leaves nothing iff every character is white space |
| MemberDetail.TrimEndKeepsNonEmpty | src/screens/MemberDetail/MemberDetail.tsx:223 | text that starts with a non-space character keeps something after trailing white space is stripped |
| MemberDetail.TrimStartStopsAtText | src/screens/MemberDetail/MemberDetail.tsx:223 | what remains after stripping leading white space starts with a non-space character |
| MemberDetail.BlankIffAllWhitespace | src/screens/MemberDetail/MemberDetail.tsx:223-233 | `s.trim().length == 0 \|\| !s` holds iff every character of `s` is white space |
| MemberDetail.StoreOwnName | src/screens/MemberDetail/MemberDetail.tsx:246-250 | the stored first name, last name and email take the form's values; every other key is unchanged |
| MemberDetail.LoginLink | src/screens/MemberDetail/MemberDetail.tsx:214-264 | each blank field among first name, last name and email gives its own warning, in that order; the mutation is sent iff none is blank, with the target id and the whole form; the stored name and email change iff it succeeded and the stored id equals the target id |
| MemberDetail.LanguageNameIsLastMatch | src/screens/MemberDetail/MemberDetail.tsx:589-597 | the name is "Unavailable" when no entry matches, otherwise the name of the last matching entry |
| MemberDetail.GetLanguageName | src/screens/MemberDetail/MemberDetail.tsx:589-597 | the loop that keeps overwriting the result returns the last match's name, or "Unavailable" |
| MemberDetail.RoleLabel | src/screens/MemberDetail/MemberDetail.tsx:479-483 | "Super Admin" iff super admin; "Admin" iff not, but administering some organisation; "User" otherwise or without a profile |
| MemberDetail.TargetId | src/screens/MemberDetail/MemberDetail.tsx:53 | the route state id if truthy, else the stored id if truthy, else the prop id |
| MemberDetail.Detail.constructor | src/screens/MemberDetail/MemberDetail.tsx:55-72 | all text fields empty except the birth date "2024-03-14", plugin creation off |
| MemberDetail.Detail.HandleChange | src/screens/MemberDetail/MemberDetail.tsx:124-136 | only the named field changes |
| MemberDetail.Detail.HandleToggleChange | src/screens/MemberDetail/MemberDetail.tsx:150-158 | only the plugin-creation switch changes |
| MemberDetail.Detail.HandleDateChange | src/screens/MemberDetail/MemberDetail.tsx:74-81 | a picked date replaces the birth date; a cleared picker changes nothing |
| CommunitySettings.ButtonVariant | src/screens/CommunitySettings/CommunitySettings.tsx:35 | a tab's variant is "success" iff it is the selected tab |
| CommunitySettings.ExactlyOneHighlighted | src/screens/CommunitySettings/CommunitySettings.tsx:16-35 | the selected tab is drawn, and exactly one drawn tab button is highlighted |
| CommunitySettings.Panels | src/screens/CommunitySettings/CommunitySettings.tsx:49-62 | exactly one panel is rendered, the one that matches the selected tab |
| CommunitySettings.Screen.constructor | src/screens/CommunitySettings/CommunitySettings.tsx:18-19 | the initial tab is profile, showing the profile panel |
| CommunitySettings.Screen.Click | src/screens/CommunitySettings/CommunitySettings.tsx:36 | clicking a tab selects it |
| LocalStorageCheck.ContainsIffOccurs | scripts/githooks/check-localstorage-usage.js:57-61 | `includes` holds iff the pattern occurs at some index of the text |
| LocalStorageCheck.FirstCharAbsent | scripts/githooks/check-localstorage-usage.js:57-61 | a pattern whose first character is absent from the text is not included in it |
| LocalStorageCheck.NoLetterNoFlag | scripts/githooks/check-localstorage-usage.js:57-61 | text without the letter "l" (an empty file in particular) uses none of the three calls |
| LocalStorageCheck.StripTrailingSlashes | scripts/githooks/check-localstorage-usage.js:47 | `basename` ignores trailing slashes: the result is a prefix of the path not ending in "/" |
| LocalStorageCheck.AfterLastSlash | scripts/githooks/check-localstorage-usage.js:47 | the kept part is a suffix of the path without any "/" |
| LocalStorageCheck.BasenameOfJoin | scripts/githooks/check-localstorage-usage.js:47 | a slash-free name under any directory has that name as its basename |
| LocalStorageCheck.BasenameOfName | scripts/githooks/check-localstorage-usage.js:47 | a non-empty slash-free name is its own basename |
| LocalStorageCheck.NeverFlaggedWithoutText | scripts/githooks/check-localstorage-usage.js:39-69 | an empty name, a missing file and an unreadable file are never flagged |
| LocalStorageCheck.FlaggedIffCallOccurs | scripts/githooks/check-localstorage-usage.js:52-63 | a readable file that is not skipped is flagged iff one of the three calls occurs somewhere in its text |
| LocalStorageCheck.ScriptNeverFlagged | scripts/githooks/check-localstorage-usage.js:43-50 | a file named like the hook script is never flagged, at the top level or in any directory |
| LocalStorageCheck.FlaggedIsSubsequence | scripts/githooks/check-localstorage-usage.js:62-72 | the flagged list is a subsequence of the listed files, in their order |
| LocalStorageCheck.FlaggedMembership | scripts/githooks/check-localstorage-usage.js:37-72 | a file is in the flagged list iff it is listed and flagged |
| LocalStorageCheck.CheckFiles | scripts/githooks/check-localstorage-usage.js:35-72 | the `forEach` over the listed files collects exactly the flagged files, in order |
| LocalStorageCheck.ExitCode | scripts/githooks/check-localstorage-usage.js:74-88 | the exit code is 1 iff some file was flagged, 0 otherwise |
| LocalStorageCheck.FailsIffSomeFileFlagged | scripts/githooks/check-localstorage-usage.js:72-88 | the hook fails iff some listed file is flagged |

## Left out

- GraphQL queries and mutations, `fetch` calls, `FormData` and authorization headers are network I/O. Each appears only as the `Outcome` (or `UploadResult`) it settles with. How a mutation that resolves with a null `data` field maps to an `Outcome` depends on the component:
  - SecuritySettings: the handlers read `result.data.restoreBackup` (and likewise for delete and schedule), so a null `data` throws and is the same as `Rejected`.
  - MemberDetail: `loginLink` destructures `{ data }` and tests `if (data)`, so a null `data` is `Resolved(false)`: nothing is stored.
  - OrgUpdate: `onSaveChangesClicked` destructures `{ data }` and tests it too, so a null `data` is `Resolved(false)`; either way the form state does not change.
  - UpdateTimeout: `handleUpdateTimeout` tests the whole result object, which is truthy even when its `data` is null, so such a resolution is `Resolved(true)` and the slider value is committed.
- `FileReader` and `convertToBase64` are browser calls. A read's completion is a separate event carrying an opaque result; a rejected `convertToBase64` (which leaves the profile unchanged) is not modelled.
- Asynchronous interleavings are not modelled: stale read completions, a double click on save, unmounting during a request. Each handler runs atomically, and no guarantee about overlapping calls is claimed.
- Dates are not modelled: `dayjs` formatting in `handleDateChange` (the model takes the formatted date), `prettyDate`, and the rest of the locale-dependent formatting.
- The tooltip position of the timeout slider (floating point) is not modelled, nor `parseInt`'s NaN for non-numeric input. Timeouts are integers.
- The DiceBear `createAvatar` generator is a foreign library and is a function parameter. CSS-module class names are modelled by their keys.
- Translations, toasts, console output, CSS and markup are not modelled, and neither are `CustomModal`, `LogoutConfirmationModal`, `UserProfile` or the dashboard mocks.
- EditableImage: `handleEditClick` only forwards a click to the hidden file input. `tooltipText`, `modalTitle`, `alt` and the size configurations only affect markup.
- SecuritySettings: the instant backup changes no component state; it only issues a mutation, a toast and a refetch.
- CommunityProfile.Load: a null `socialMediaUrls` object makes the effect throw when it reads `socialMediaUrls.facebook`. The model has no such value: the URLs are always a map, and a missing key loads as "".
- OrgUpdate.Form.Loaded: an empty `organizations` list makes the effect throw when it reads `organizations[0]`. The model always receives one organisation.
- MemberDetail: the data effect that fills the form from the user query is not modelled. The language select (lines 533-538) is `HandleChange` on `AppLanguageCode`. The dropdown setters, `handleSaveImage` and the rest of the screen are left out.
- MemberDetail.LoginLink: a `firstName`, `lastName` or `email` that is undefined would make `trim` throw. In the model the form fields are always strings.
- MemberDetail.RoleLabel: a profile that is not a super admin and has an undefined `adminFor` would throw. In the model `adminFor` is always a list.
- `localStorage` is an abstract map from key to stored string; the key prefix and JSON encoding of the storage hook are not modelled.
- The hook script's `execSync` listing of files (and its exit on a failing git call) is an input list. `existsSync` and `readFileSync` become the `FileState` map. The script's own resolved path is a parameter.
- LocalStorageCheck.Basename: models POSIX `path.basename` without a suffix argument; Windows separators are not modelled.
