# Group profile roster editor

A model of the roster editor on the recipe application's profile page
(`src/pages/ProfilePage.jsx`). The page keeps a roster of group members (name,
student number "NIM", optional avatar data URI), an edit-mode flag, and one
browser-storage slot under the key `"groupProfileInfo"` holding the last saved
roster. Its handlers are modelled as a state machine:

- `Roster` — the member record, the built-in one-member default roster, and the
  positional field update done by the input-change handler (`UpdateAt`, the
  `members.map` with an object spread).
- `Upload` — the checks run on a picked avatar file: no file, a media type not
  starting with `image/`, a size above 2 MiB (2097152 bytes), in that order.
- `Favorites` — the favourites panel's choice between spinner, error message,
  empty notice and recipe grid.
- `Profile` — the page state (`PageState`), one step function per handler
  (mount, input change, photo change, save, cancel, reset, remove photo, enter
  edit), an `Event`/`Run` view of action sequences, the `ProfilePage` class
  whose fields the handlers overwrite (each method's postcondition is that the
  new state is the step function of the old one), and lemmas about the steps.
- `Wrappers` — `Option`, standing for JavaScript's value-or-null.

Modelling choices:

- Storage is the field `stored: Option<seq<Member>>`. Serialising a roster and
  parsing it back is treated as the identity. A stored roster always
  serialises to at least `"[]"`, so a present value is always truthy in the
  `if (stored)` tests.
- The confirmation dialogs of reset and remove-photo are boolean inputs.
- The field name and value passed to the input-change handler are one
  `FieldUpdate` value. The page only ever passes text for `name` and `nim`, and a
  data URI or null for `avatar`.
- An accepted upload is an ordinary avatar update. The data URI that reading
  the file would produce is an input (`dataUri`).
- The mount effect changes only the roster, and only when storage holds a
  roster. On a fresh page the roster is then the default, as the page's
  initial state is the default roster.
- The favourites `error` follows JavaScript truthiness: an empty error string
  counts as no error.

## Model

| member | source | states |
|---|---|---|
| Roster.Apply | src/pages/ProfilePage.jsx:36 | the named field takes the new value; the other two fields keep theirs |
| Roster.UpdateAt | src/pages/ProfilePage.jsx:34-39 | same length; every member at a position other than `index` unchanged; the member at `index` gets the update; an out-of-range index leaves the roster equal to the old one |
| Roster.UpdateAtIdempotent | src/pages/ProfilePage.jsx:35-37 | applying the same update at the same index twice equals applying it once |
| Roster.UpdateAtCommutes | src/pages/ProfilePage.jsx:35-37 | updates at two different indices give the same roster in either order |
| Upload.StartsWith | src/pages/ProfilePage.jsx:44 | `s.startsWith(prefix)` holds exactly when the prefix is no longer than `s` and agrees with it character by character |
| Upload.Check | src/pages/ProfilePage.jsx:42-47 | no file gives NoFile; a type not starting with "image/" gives NotAnImage whatever the size; an image over 2097152 bytes gives TooLarge; otherwise Accepted (each as an if-and-only-if) |
| Upload.SizeLimitIsInclusive | src/pages/ProfilePage.jsx:46-47 | an image of exactly 2097152 bytes is accepted and one of 2097153 bytes is refused as too large |
| Upload.SampleRejections | src/pages/ProfilePage.jsx:44-47 | a 3 MiB PNG is refused as too large; a "text/plain" file is refused as not an image at any size |
| Favorites.Truthy | src/pages/ProfilePage.jsx:230 | the error counts as present exactly when it is neither null nor the empty string |
| Favorites.View | src/pages/ProfilePage.jsx:225-251 | spinner exactly when loading; error message (with the error text) exactly when not loading and the error is truthy; empty notice exactly when neither and the list is empty; grid of exactly the favourites otherwise |
| Favorites.EmptyErrorIsNoError | src/pages/ProfilePage.jsx:230 | an empty error string selects the same view as a null error |
| Profile.Restored | src/pages/ProfilePage.jsx:65-66 | reading the slot gives the stored roster if present, the default roster otherwise |
| Profile.Initial | src/pages/ProfilePage.jsx:24-25 | a fresh page holds the default roster, is in view mode and sees the given storage |
| Profile.MountStep | src/pages/ProfilePage.jsx:29-32 | the mount effect replaces the roster by the stored one when a roster is stored and otherwise keeps it; flag and storage are kept |
| Profile.InputChangeStep | src/pages/ProfilePage.jsx:34-39 | the input-change handler leaves the edit flag and storage unchanged |
| Profile.PhotoChangeStep | src/pages/ProfilePage.jsx:41-54 | a file that is not accepted leaves the whole state unchanged |
| Profile.SaveStep | src/pages/ProfilePage.jsx:58-62 | save keeps the roster |
| Profile.CancelStep | src/pages/ProfilePage.jsx:64-68 | cancel leaves storage unchanged |
| Profile.RemovePhotoStep | src/pages/ProfilePage.jsx:78-82 | a confirmed removal is the input-change handler writing null into member `index`'s avatar; a declined one changes nothing; flag and storage are kept |
| Profile.EnterEditStep | src/pages/ProfilePage.jsx:205 | the edit button sets the flag and keeps roster and storage |
| Profile.ResetStep | src/pages/ProfilePage.jsx:70-76 | a confirmed reset gives the default roster, view mode and empty storage from any state; a declined one changes nothing |
| Profile.MountLoadsStorage | src/pages/ProfilePage.jsx:19-32 | a mounted page holds the stored roster, or with nothing stored exactly the one member "Defdava Haryadi", "21120123120024", no avatar; it is in view mode and storage is unchanged |
| Profile.InputChangeFrame | src/pages/ProfilePage.jsx:34-39 | the handler keeps the roster length and every other member, applies the update at `index`, and with an out-of-range index changes nothing |
| Profile.PhotoChangeFrame | src/pages/ProfilePage.jsx:41-54 | a missing or refused file changes nothing; an accepted one is the avatar update of the input-change handler: member `index`'s avatar becomes the file's data URI, its name and NIM, every other member, the flag and storage are kept, and an out-of-range index changes nothing |
| Profile.SaveStoresRoster | src/pages/ProfilePage.jsx:58-62 | save stores exactly the current roster, keeps the roster and leaves edit mode |
| Profile.CancelRestoresStorage | src/pages/ProfilePage.jsx:64-68 | cancel sets the roster to the stored one, or the default when nothing is stored, and leaves edit mode |
| Profile.RemovePhotoFrame | src/pages/ProfilePage.jsx:78-82 | a confirmed removal sets member `index`'s avatar to null and changes no other field, no other member, the flag or storage; a declined one changes nothing |
| Profile.EnterEditOnlySetsFlag | src/pages/ProfilePage.jsx:205 | entering edit mode sets the flag and changes neither roster nor storage |
| Profile.StorageWrittenOnlyBySaveOrReset | src/pages/ProfilePage.jsx:58-76 | any action that changes storage is a save or a confirmed reset |
| Profile.SaveThenCancel | src/pages/ProfilePage.jsx:58-68 | save followed by cancel gives the roster from before, stored, in view mode |
| Profile.SaveThenRemount | src/pages/ProfilePage.jsx:29-62 | a new page mounted over the storage left by save holds the saved roster |
| Profile.ResetThenRemount | src/pages/ProfilePage.jsx:70-76 | a new page mounted after a confirmed reset holds the default roster |
| Profile.MountAgreesWithCancel | src/pages/ProfilePage.jsx:29-68 | mounting over a storage slot and cancelling with that slot give the same roster |
| Profile.EditsKeepStorage | src/pages/ProfilePage.jsx:34-82 | any sequence of input changes, photo picks, photo removals and edit-button presses leaves storage unchanged |
| Profile.EditsKeepLength | src/pages/ProfilePage.jsx:34-82 | any such sequence keeps the number of members |
| Profile.CancelDiscardsEdits | src/pages/ProfilePage.jsx:34-68 | cancel after any such sequence gives the same state as cancel before it |
| Profile.CancelRestoresLastSave | src/pages/ProfilePage.jsx:58-68 | save, any such sequence, then cancel gives back the saved roster |
| Profile.ProfilePage.constructor | src/pages/ProfilePage.jsx:24-25 | a new page holds the default roster, in view mode, over the given storage |
| Profile.ProfilePage.Mount | src/pages/ProfilePage.jsx:29-32 | the new state is the mount step of the old one |
| Profile.ProfilePage.InputChange | src/pages/ProfilePage.jsx:34-39 | the new state is the input-change step of the old one |
| Profile.ProfilePage.PhotoChange | src/pages/ProfilePage.jsx:41-54 | returns the upload decision; the new state is the photo-change step of the old one |
| Profile.ProfilePage.Save | src/pages/ProfilePage.jsx:58-62 | the new state is the save step of the old one |
| Profile.ProfilePage.Cancel | src/pages/ProfilePage.jsx:64-68 | the new state is the cancel step of the old one |
| Profile.ProfilePage.Reset | src/pages/ProfilePage.jsx:70-76 | the new state is the reset step of the old one |
| Profile.ProfilePage.RemovePhoto | src/pages/ProfilePage.jsx:78-82 | the new state is the remove-photo step of the old one |
| Profile.ProfilePage.EnterEdit | src/pages/ProfilePage.jsx:205 | the new state is the enter-edit step of the old one |
| Profile.EditSaveEditCancel | src/pages/ProfilePage.jsx:181-210 | on the object: edit, upload and save, then edit and cancel, ends in view mode with the saved roster both shown and stored |

## Left out

- Rendering: JSX markup, CSS classes, icons, and the generated placeholder avatar URL (it depends on the browser's `encodeURIComponent`).
- Reading the picked file (`FileReader`, `readAsDataURL`, the `onloadend` callback): the resulting data URI is an input of the photo-change step, and the asynchronous delay between acceptance and the avatar update is not modelled. A failed read, after which the callback writes null into the avatar, is not modelled either: an accepted file always ends as a data URI. So the callback's use of the roster from an earlier render, and its race with later edits, cancel or reset, are not captured.
- The real `localStorage` and `JSON.stringify`/`JSON.parse`: storage is one optional roster. A malformed stored value, which makes `JSON.parse` throw, and a failed storage write (for example, quota exceeded) are not modelled.
- `alert` messages are not modelled. `Upload.Check` returns which guard fired, which is the information the alerts carry.
- `window.confirm` is a boolean input, not a dialog.
- The `useFavorites` hook and the `RecipeGrid` component: their code is not part of this model. The panel takes their outputs as inputs.
- The file-input refs and `triggerInput`: DOM plumbing with no state of the roster.
- Which buttons are visible in which mode: the handlers are modelled as callable in any state, as their code does not check the flag.
