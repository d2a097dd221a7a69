# RFP dashboard: kanban board, submission wizard, client list and status badges

This project models, in Dafny, the client-side logic of a single-page RFP ("Request For
Proposal") tracking dashboard, and proves properties of it. Four pieces of the program
have behaviour worth stating:

- **The kanban board** (`KanbanBoard` in `kanban_board.dfy`). It keeps a map from column key
  (`new`, `inProgress`, `submitted`, `won`, `lost`) to a named, ordered list of RFP cards.
  It also keeps a drag marker (card id and source column). `Board.Drop` splices the card out
  of its source list and appends it to the target list. The class invariant `Board.Valid`
  says three things:
  - the key set is fixed;
  - card ids are unique across the board (stated on the board-wide multiset of cards);
  - a set marker names a card that is present in its source column.
  The constructor establishes it from the seed, and every handler preserves it.
- **The multi-step submission wizard** (`FormWizard` in `form_wizard.dfy`).
  - Pure functions: the zod field rules, including the anchored date pattern
    `^\d{4}-\d{2}-\d{2}$` written as a list of atoms; the three steps and the fields each
    one owns; the stepper's drawing status; which buttons are offered.
  - Class `Wizard`: the step counter and the form values, with `Edit`, `Next`, `Prev` and
    `Submit`.
- **The client list** (`ClientsPage` in `clients.dfy`). A new client's id is `"CLI"`
  followed by the new length, written in decimal and left-padded with `'0'` to width 3.
  The model proves the round trip `ParseClientId(ClientId(n)) == Some(n)`, so the ids are
  injective. Class `ClientList` keeps the invariant that the i-th client's id is
  `ClientId(i + 1)`, so every generated id is fresh.
- **The Active RFPs page** (`ActiveRfps` in `active_rfps.dfy`). It has the status-to-badge
  mapping and the constant table. The table is proved to list the kanban seed's cards in
  render order, and each row's status is the name of the column holding that card. The
  table is drawn from a constant array that takes no board argument, so moving cards on
  the board does not change it.

`common.dfy` holds the `Option` datatype and the ASCII digit predicate.

## Behaviour worth noting

- **Drop with a card missing from its source column.** `findIndex` would return -1, and
  `splice(-1, 1)` would then move the source column's last card. The model does not
  claim a no-op for this case. It proves that the case cannot arise: `Board.Valid` keeps
  the marker pointing at a card that is present.
- **Drag end.** `handleDragEnd` only removes a CSS class. The marker stays set until the
  next drop or drag start, so `Board.DragEnd` changes nothing.
- **Submit on the review step can still fail.** Next checks only the current step's
  fields. The step panel sits inside `AnimatePresence mode="wait"` with a 0.3 s exit
  animation, so after Next the previous step's inputs stay mounted and editable for a
  moment. A first-step field can therefore be invalid on the review step.
  `Wizard.Edit` admits an edit of any field on any step. `Wizard.Submit` hands the
  values on exactly when the whole schema passes. `ReviewStepCanReject` exhibits values
  that pass the second step's check and still fail the schema.
- **Next on the review step.** That step has no `fields` entry, so `trigger(undefined)`
  would validate the whole form. The button is not offered there (`NextOffered`), but
  `Wizard.Next` models that call too, and the step stays at 2.

## Model

| member | source | states |
|---|---|---|
| `KanbanBoard.FirstIndex` | src/components/KanbanBoard.tsx:94 | -1 exactly when no card has the id; otherwise the first position holding a card with that id |
| `KanbanBoard.FindIndex` | src/components/KanbanBoard.tsx:94 | the left-to-right search loop returns that same first index, or -1 |
| `KanbanBoard.MoveCard` | src/components/KanbanBoard.tsx:89-108 | key set and every column name unchanged; columns other than source and target unchanged; the old source list is the new one with the card put back at its old position, so the other cards keep their order; the new target list is the old one with the card appended |
| `KanbanBoard.CardBagUpdate` | src/components/KanbanBoard.tsx:98-108 | replacing one column entry changes the board-wide card multiset by exactly that column's difference |
| `KanbanBoard.TransferKeepsCards` | src/components/KanbanBoard.tsx:94-108 | taking a card out of one column and adding it to another keeps the key set and the board-wide card multiset |
| `KanbanBoard.MoveCardConserves` | src/components/KanbanBoard.tsx:94-108 | a move keeps the board-wide multiset of cards, hence the card count, and keeps ids unique |
| `KanbanBoard.MoveCardRelocates` | src/components/KanbanBoard.tsx:94-96 | with unique ids, after a move no card with that id remains in the source column, and the target's last card has it |
| `KanbanBoard.SeedCardBag` | src/components/KanbanBoard.tsx:26-58 | the seed has exactly the five keys, and its cards are the six seed cards |
| `KanbanBoard.SeedUniqueIds` | src/components/KanbanBoard.tsx:26-58 | the seed cards' ids are unique |
| `KanbanBoard.SeedValid` | src/components/KanbanBoard.tsx:26-58 | the seed board has the five keys, six cards and unique ids |
| `KanbanBoard.Board.constructor` | src/components/KanbanBoard.tsx:61-62 | starts from the seed columns with no marker, satisfying the invariant |
| `KanbanBoard.Board.DragStart` | src/components/KanbanBoard.tsx:65-66 | for a card rendered in a column, sets the marker to that card and column; columns unchanged |
| `KanbanBoard.Board.Drop` | src/components/KanbanBoard.tsx:78-111 | no marker: nothing changes; same column: columns unchanged and marker cleared; otherwise the columns become `MoveCard` of the old ones and the marker is cleared; always keeps the card multiset and the invariant |
| `KanbanBoard.Board.DragEnd` | src/components/KanbanBoard.tsx:113-115 | neither the columns nor the marker change |
| `FormWizard.FullMatch` | src/components/MultiStepFormWizard.tsx:19 | an anchored match consumes one character per atom, so a match has the pattern's length |
| `FormWizard.FieldValid` | src/components/MultiStepFormWizard.tsx:16-22 | the notes field accepts anything, the empty string included; an accepted due date has exactly ten characters |
| `FormWizard.FieldsValidMembers` | src/components/MultiStepFormWizard.tsx:16-22 | a list of fields passes exactly when every field occurring in it passes its rule |
| `FormWizard.AllFieldsListed` | src/components/MultiStepFormWizard.tsx:15-21 | every field of the form is a key of the schema |
| `FormWizard.SchemaValid` | src/components/MultiStepFormWizard.tsx:15-21 | the schema passes exactly when each of the five fields passes its rule |
| `FormWizard.TriggerPasses` | src/components/MultiStepFormWizard.tsx:58-59 | `trigger(fields)` passes exactly when every named field is valid, and every field of the form when no list is given |
| `FormWizard.StatusOf` | src/components/MultiStepFormWizard.tsx:88-91 | a step is drawn done exactly when it lies before the current step, highlighted exactly when it is the current step, and grey exactly when it lies after it |
| `FormWizard.ReviewStepCanReject` | src/components/MultiStepFormWizard.tsx:57-66 | values can pass the second step's Next and still fail the whole schema that Submit checks |
| `FormWizard.Set` | src/components/MultiStepFormWizard.tsx:110-141 | typing into one input changes that field and no other |
| `FormWizard.FullMatchPositionwise` | src/components/MultiStepFormWizard.tsx:19 | an anchored match holds exactly when lengths agree and each character matches its atom |
| `FormWizard.DueDateShape` | src/components/MultiStepFormWizard.tsx:19 | a due date is accepted iff it has 10 characters, ASCII digits at 0-3, 5-6 and 8-9, and '-' at 4 and 7 |
| `FormWizard.LengthExamples` | src/components/MultiStepFormWizard.tsx:17-18 | "Test" is rejected and "Testt" accepted as a title; "Acme" is accepted and "A" rejected as a client name |
| `FormWizard.DateShapeOnly` | src/components/MultiStepFormWizard.tsx:19 | "2024-99-99" is accepted: no calendar check |
| `FormWizard.DateNeedsTwoDigitMonth` | src/components/MultiStepFormWizard.tsx:19 | "2024-9-15" is rejected |
| `FormWizard.StepsPartitionSchema` | src/components/MultiStepFormWizard.tsx:26-30 | the field lists of steps 0 and 1 partition the schema's keys; the review step has no field list |
| `FormWizard.SchemaValidIffSteps` | src/components/MultiStepFormWizard.tsx:16-30 | the whole schema passes iff the fields of step 0 and of step 1 both pass |
| `FormWizard.StepperCounts` | src/components/MultiStepFormWizard.tsx:88-91 | exactly one step is drawn as current, and the number of steps drawn as done equals the current step |
| `FormWizard.PrevDisabled` | src/components/MultiStepFormWizard.tsx:159 | Previous is disabled exactly when the first step is the current one |
| `FormWizard.NextOffered` | src/components/MultiStepFormWizard.tsx:162-170 | Next is offered exactly on the steps that own a field list (0 and 1); Submit exactly on step 2 |
| `FormWizard.Wizard.constructor` | src/components/MultiStepFormWizard.tsx:33 | starts on step 0 with empty values |
| `FormWizard.Wizard.Edit` | src/components/MultiStepFormWizard.tsx:102-141 | typing into any field's input sets that field and no other; the step is unchanged |
| `FormWizard.Wizard.Next` | src/components/MultiStepFormWizard.tsx:57-66 | reports whether the current step's fields pass; if not, the step is unchanged; if so, it increments only below the last step; values unchanged |
| `FormWizard.Wizard.Prev` | src/components/MultiStepFormWizard.tsx:68-72 | decrements above step 0, otherwise nothing; no validation; the step stays in [0, 2] |
| `FormWizard.Wizard.Submit` | src/components/MultiStepFormWizard.tsx:167 | hands on the values exactly when the whole schema passes, and nothing otherwise |
| `ClientsPage.Decimal` | src/pages/Clients.tsx:85 | `String(n)` is a non-empty string of ASCII digits with no leading zero (its first digit is '0' only for 0) |
| `ClientsPage.DecimalLength` | src/pages/Clients.tsx:85 | a numeral of k digits stands for a number below 10^k, and at least 10^(k-1) from 10 on |
| `ClientsPage.DecimalRoundTrip` | src/pages/Clients.tsx:85 | reading back the decimal numeral of n gives n |
| `ClientsPage.PadStart` | src/pages/Clients.tsx:85 | the result has length max(len, width), ends with the input, and has only pad characters before it (never truncates) |
| `ClientsPage.LeadingZeros` | src/pages/Clients.tsx:85 | leading zeros do not change a numeral's value |
| `ClientsPage.ClientId` | src/pages/Clients.tsx:85 | the id is "CLI" followed by at least three digits |
| `ClientsPage.ClientIdRoundTrip` | src/pages/Clients.tsx:85 | the number can be read back from the id |
| `ClientsPage.ClientIdInjective` | src/pages/Clients.tsx:85 | two list lengths give the same id iff they are equal |
| `ClientsPage.ClientIdWidth` | src/pages/Clients.tsx:85 | the id has exactly six characters iff n < 1000; from 1000 on it is "CLI" and the unpadded numeral |
| `ClientsPage.ClientIdOneDigit` | src/pages/Clients.tsx:85 | single-digit numbers are padded with two zeros |
| `ClientsPage.ClientIdExamples` | src/pages/Clients.tsx:85 | the first client gets CLI001; after the four seed clients the next gets CLI005 |
| `ClientsPage.ClientIdWide` | src/pages/Clients.tsx:85 | at length 999 the next id is CLI1000 (not truncated) |
| `ClientsPage.NumberedIdsDistinct` | src/pages/Clients.tsx:84-86 | in a list numbered CLI001, CLI002, ... all ids are distinct |
| `ClientsPage.NextIdFresh` | src/pages/Clients.tsx:85-86 | the id generated for the next client is used by no existing client |
| `ClientsPage.SeedNumbered` | src/pages/Clients.tsx:61-66 | the seed ids are CLI001..CLI004 in order |
| `ClientsPage.SchemaValid` | src/pages/Clients.tsx:50-56 | company name and contact person have at least two characters and the email passes the email rule |
| `ClientsPage.SchemaIgnoresIdAndPhone` | src/pages/Clients.tsx:50-56 | the optional `id` and `phone` never decide whether a record passes |
| `ClientsPage.PhoneCell` | src/pages/Clients.tsx:204 | the cell shows "N/A" when the phone is missing or empty, and the phone otherwise, so it is never blank |
| `ClientsPage.ClientList.constructor` | src/pages/Clients.tsx:71-82 | starts with the seed list, the dialog closed and the default form values |
| `ClientsPage.ClientList.SetDialogOpen` | src/pages/Clients.tsx:101 | sets the dialog flag, nothing else |
| `ClientsPage.ClientList.FillForm` | src/pages/Clients.tsx:119-170 | typing into the four inputs sets those form fields; the list and dialog flag are unchanged |
| `ClientsPage.ClientList.OnSubmit` | src/pages/Clients.tsx:84-90 | for schema-valid values, appends exactly one record at the end: the values with the fresh id; earlier clients unchanged; form reset to defaults; dialog closed |
| `ClientsPage.ClientList.HandleSubmit` | src/pages/Clients.tsx:118 | `OnSubmit` runs iff the form's values pass the schema; otherwise nothing changes |
| `ActiveRfps.StatusVariant` | src/pages/ActiveRFPs.tsx:35-48 | "Won" maps to default, "Submitted" to outline, "Lost" to destructive, and every other string (including "In Progress" and "New") to secondary |
| `ActiveRfps.TableMirrorsKanbanSeed` | src/pages/ActiveRFPs.tsx:22-29 | the table's rows are the kanban seed's cards in render order (same id, title, company, value and due date), each with its column's name as status |
| `ActiveRfps.SeedBadges` | src/pages/ActiveRFPs.tsx:94-101 | the seed rows draw secondary, secondary, secondary, outline, default, destructive |

## Left out

- Rendering and styling are not modelled: JSX, CSS classes, the `opacity-50` toggling on
  drag start and drag end, framer-motion animation, toasts and `console.log` calls.
- The `dataTransfer` payload written on drag start is not modelled. It is a copy of the
  marker, and the drop handler never reads it.
- `handleDragOver` only calls `preventDefault` and sets the drop effect on the DOM event,
  so it is not modelled.
- Floating-point display is not modelled: `(value / 1000).toFixed(0)` on cards,
  `toLocaleString` in the table, and the dashboard and metric-card number formatting.
- The chart pages, the route table, the sidebar, header and footer are not modelled. They
  are constant data handed to libraries, or view composition; the footer reads the clock.
- Navigation on clicking a card (a router `Link`) is not modelled.
- KanbanBoard.Board.Drop: requires the target to be a board key, because every drop
  target is a rendered column.
- KanbanBoard.Board.Drop: a marker naming an absent card is excluded by `Board.Valid`
  rather than modelled. There, `splice(-1, 1)` would move the source's last card (or
  `undefined`).
- ClientsPage.SchemaValid: zod's email rule is not modelled. It is the parameter `isEmail`.
- FormWizard.FieldValid: zod's `min` counts UTF-16 code units; the model counts the
  characters of a Dafny string.
- ClientsPage.SchemaValid: the same holds for the two `min(2)` rules. An astral character
  such as an emoji is two code units and passes zod's `min(2)` alone, but it is one
  character in the model.
- FormWizard.Wizard.Edit: the exit-animation window is not modelled as state. The model
  admits an edit of any field on any step, which covers the inputs of the current step
  and those of the step whose panel is still fading out.
- FormWizard.Wizard.Next: reports only whether the step passed. Per-field error messages
  and focusing the first failing field belong to react-hook-form and are not modelled.
- FormWizard.Wizard.Submit: the record handed to `processForm` is returned. The success
  toast and the `isSubmitting` flag are not modelled.
- FormWizard.Wizard.Next: react-hook-form's `trigger` and `handleSubmit` are asynchronous;
  they are modelled as synchronous calls that complete before the next event.
- ClientsPage.ClientList.OnSubmit: reads the current list length. Two submissions handled
  before React re-renders would both see the old `clients` closure and could reuse an id.
  That interleaving is not modelled.
- The Edit, Delete and Archive menu items have no handlers, so there is nothing to model.
