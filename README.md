# s_lf: the root state, its id counter and its document model, in Dafny

s_lf is a personal "notes to self" store. Its whole state is one value,
`S_lf`. That value holds a nonce counter, a server-issued state cookie,
a map of exported uuids, the user's name and pronouns, the user's own
`Person`, the DMs, the journal pages, the archived DOI documents and an
optional storage backend. This project models:

- the root state as the class `State.Slf`, whose `Gensym` method is the id
  allocator and whose `Save` function dispatches to the optional backend;
- the persisted form of the state (`State.Snapshot`). serde skips the storage
  backend, so the snapshot holds every field except that one, and
  deserialising always yields a state without a backend;
- the sequence of ids that repeated `gensym` calls return (`Nonce.Issued`),
  with lemmas that these ids are strictly increasing and distinct, and that
  ids issued after the counter passed a point never repeat earlier ones;
- the document datatypes (`MsgContent` with its sixteen variants, `Msg`,
  `Person`, `DM`, `JournalPage`, `Authority`, `ContentPolicy`), and the
  persisted form of message content. serde skips the `Embed` variant, so
  writing it fails and reading can never produce it.

Foreign types (`Url`, `Mime`, chrono's `DateTime`, `Webpage`, `Vcard`,
`Uuid`, eyre's `Report`) are opaque types in module `Foreign`. The
`Storage` trait becomes the class `State.Backend`. The class holds the
backend's answer as a function of the persisted state, and its object
identity stands for the shared `Arc`.

Notes on the code as modelled:

- `ContentPolicy` is a `Vec<Authority>` (src/main.rs:49-51), modelled as a
  sequence.
- The code has no operation that checks authorities, exports uuids,
  flattens messages or diffs states, so none is modelled.
- Messages (`Msg`) are not stored in the root state: its fields hold only
  message ids. So `Embed` content cannot reach the persisted state in
  any case.
- The counter is persisted with the state. `GensymMany` ties a run of
  `gensym` calls on one state to `Issued`. `IdsSurviveRestart` shows that a
  state loaded from a snapshot issues only ids above every id issued before
  the snapshot. A clone has a counter of its own, so a clone and its
  original hand out the same next id (`CloneRepeatsIds`): uniqueness holds
  per state object.

## Model

| member | source | states |
|---|---|---|
| `State.Slf.Gensym` | src/main.rs:196-203 | returns the previous counter plus one and stores that value as the new counter; every other persisted field and the backend are unchanged; requires the counter below 2^64-1, where the `u64` addition overflows |
| `State.Slf.GensymMany` | src/main.rs:196-203 | `k` calls of `gensym` in a row return exactly the ids `Issued` names from the old counter, and leave the counter `k` higher; nothing else changes |
| `State.Slf.Save` | src/main.rs:205-209 | with no backend the result is `Ok`; with a backend the result is exactly that backend's answer on the whole persisted state |
| `State.Slf.FromSnapshot` | src/main.rs:177-193 | deserialising restores every persisted field and leaves the skipped storage backend absent |
| `State.Slf.Clone` | src/main.rs:177-193 | a clone is a fresh object with the same persisted fields; it shares the same backend object |
| `State.Backend.constructor` | src/main.rs:159-161 | a backend answers `save` with a fixed function of the persisted state it is handed |
| `State.RestoreThenSave` | src/main.rs:191-192 | a state loaded from any snapshot has no backend, so `Save` on it answers `Ok` |
| `State.ResumeAfterRestore` | src/main.rs:179-180 | the counter is persisted, so the first id a restored state issues is the snapshot's counter plus one |
| `State.IdsSurviveRestart` | src/main.rs:179-180 | ids a state issues, then ids a state loaded from its snapshot issues: every later id is above every earlier one, so none repeats |
| `State.CloneRepeatsIds` | src/main.rs:177-180 | a clone carries its own copy of the counter, so the clone and its original each issue the same next id |
| `Nonce.Issued` | src/main.rs:196-203 | `k` successive calls return exactly `k` ids |
| `Nonce.IssuedValues` | src/main.rs:199-202 | the `i`-th of successive calls from counter `start` returns `start + i + 1` |
| `Nonce.IssuedStrictlyIncreasing` | src/main.rs:179-180 | ids from successive calls are strictly increasing, lie in `(start, start + k]`, and no id is returned twice |
| `Nonce.IssuedSplit` | src/main.rs:199-202 | after `j` calls the counter stands at `start + j`, and later calls continue from there |
| `Nonce.IssuedDisjoint` | src/main.rs:179-180 | no id issued before the counter reached `start + j` is issued again afterwards |
| `Document.Persist` | src/main.rs:109-150 | writing content fails exactly on the skipped `Embed` variant; whatever it writes reads back as the original content |
| `Document.Restore` | src/main.rs:110-113 | reading persisted content never yields an `Embed` |
| `Document.PersistRestore` | src/main.rs:109-150 | writing content that was read back reproduces the persisted form |
| `Document.PersistMsg` | src/main.rs:152-157 | writing a message fails exactly when its content is `Embed`; otherwise it reads back as the same message |
| `Document.RestoreMsg` | src/main.rs:152-157 | a message read back keeps its id and authored date, its content writes back to the stored content, and it never carries `Embed` content |
| `Document.PersistRestoreMsg` | src/main.rs:152-157 | writing a message that was read back reproduces the persisted message |

## Left out

- `main` (src/main.rs:226-268): network and file I/O (an HTTP GET and POST, a JSON
  write to disk), and the structural diff of the external `json_patch` crate.
  `RestoreThenSave` shows that a state obtained as `main` obtains it has
  no backend, so `save` on it would answer `Ok`; `main` itself never calls
  `save`, and nothing in the code calls `gensym`.
- src/tui.rs: terminal rendering, raw mode, and the input thread that
  talks to it over channels.
- The `serde_vcard` module and `Card::clone` (src/main.rs:60-93): they wrap
  the external `vobject` crate. A card is an opaque `Vcard` or nothing.
  The model treats a card as reading back unchanged: serde writes it as
  vCard text and parses it again on reading, and the decode error for a
  rejected vCard is not modelled.
- The byte-level JSON encoding serde produces. The persisted forms here
  are datatypes that keep exactly what serde writes; the encoding is not modelled.
- `Arc<Mutex<…>>` sharing and `argh` argument parsing: concurrency and
  command-line plumbing.
- Side effects a storage backend performs: its answer is modelled; its writes are not.
- State.Backend: the backend's answer is a fixed function of the snapshot it
  is handed, so two saves of equal states answer alike; a backend whose
  answer varies between calls (a disk that fills up, say) is not captured.
- State.Slf.Gensym: requires the counter below 2^64-1. At the maximum, the
  source panics (debug build) or wraps to 0 (release build); neither is modelled.
