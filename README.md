# ComunicaFácil: card and session state, in Dafny

ComunicaFácil is a visual-card communication aid. The user makes cards (an image
and a text that is read aloud), groups them into named sessions shown as tabs,
moves cards between sessions and deletes them. All of this logic lives in the
`ComunicaFacil` React component. This project models its state and its four
handlers:

- create card (`handleCriarCartao`);
- create session (`handleCriarSessao`);
- move card (`handleMoverCartao`);
- delete card (`handleExcluirCartao`).

It also models the `cartoesNaSessaoAtual` view and the way `loadDados` merges
stored data into the initial state.

The state has three parts: the cards `{id, texto, imagem, sessaoId}`, the ordered
sessions `{id, nome, cartoes}`, and the active session `sessaoAtual`. It also holds
the form fields the handlers read and the modal flags they clear. The handlers keep a
two-way reference in step: a card's `sessaoId` names its session, and that session's
`cartoes` list holds the card's id. `AppState.Consistent` states this reference in
full:

- session ids are unique, and so are card ids;
- the active session exists;
- every card names an existing session;
- a card's id is in the list of the session it names and in no other list;
- every listed id belongs to a card;
- no list repeats an id.

The project has six modules, one file each:

- `Seqs` (seqs.dfy) models JavaScript's `filter` and proves that it keeps order and multiplicity.
- `Text` (text.dfy) models `String.prototype.trim` with the ECMAScript whitespace and line-terminator set.
- `AppState` (state.dfy) has the entities, the initial state and the invariant.
- `Handlers` (handlers.dfy) has each handler as a pure transition on `UiState`.
- `Invariants` (invariants.dfy) proves that the handlers preserve the invariant and proves the view properties. It proves that every state the handlers and form inputs reach from the initial one, without loading, is consistent. It also proves what a startup load does to the invariant.
- `Component` (component.dfy) has the `ComunicaFacil` class. Its fields are the `useState` pairs, and its methods assign them in the order the handlers call the setters. Each method is proved equal to the matching pure transition.

Inputs from outside the component are parameters of the handlers. `Date.now()`
becomes a caller-supplied card or session id. `FileReader`'s `reader.result` becomes
a caller-supplied data-URL string, and the reader runs synchronously, so it captures
`sessaoAtual` at the moment of the call. What the stores return to `loadDados` is an
`Option<Loaded>`, and `None` stands for a failed read. Freshness of ids is not required
by the handlers. Only the lemmas that preserve the invariant require it, because
`Date.now()` is what supplies it in the source.

Two facts about the handlers shape the model:

- `handleCriarSessao` appends the new session at the end of the list (src/App.jsx:169), so `principal` stays first.
- `handleMoverCartao` has no guard of its own. The model takes its inputs as given. Besides consistency, `MoveCardKeepsConsistent` therefore requires what the interface guarantees. The card comes from the grid, that is, from the active session. The target is an existing session other than the active one, which the move dialog's filter ensures (src/App.jsx:382). `MoveToActiveDetaches` shows what the unguarded handler does when the target is the active session.

## Model

| member | source | states |
|---|---|---|
| Seqs.Filter | src/App.jsx:198 | `filter` keeps exactly the accepted elements and never lengthens the array |
| Seqs.FilterCounts | src/App.jsx:218 | each accepted element occurs in the result as often as in the input, and a rejected one does not occur |
| Seqs.FilterIsSubsequence | src/App.jsx:218 | `filter` keeps the input order |
| Seqs.FilterNoDup | src/App.jsx:204 | filtering a list without repeats gives a list without repeats |
| Seqs.FilterSnoc | src/App.jsx:145 | filtering an array with one element appended is filtering the array, then appending that element when it is accepted |
| Seqs.Without | src/App.jsx:177 | `ids.filter(id => id !== x)` drops every `x`, keeps every other id in its old order and as many times as it occurred, keeps lists repeat-free, and changes nothing when `x` is absent |
| Text.Trim | src/App.jsx:161 | the trimmed name is a slice of the name with only whitespace before and after it, and it is empty or begins and ends with a non-whitespace character |
| Text.BlankIffAllWhitespace | src/App.jsx:161 | `!novaSessao.trim()` holds exactly when every character of the name is whitespace |
| Handlers.RemoveCard | src/App.jsx:198 | the remaining cards are exactly the old cards with a different id, in their old order and with their multiplicity, and there are still no repeats |
| Handlers.CreateCard | src/App.jsx:133-158 | empty text or no image: nothing changes; otherwise one card is appended with the active session as its `sessaoId`, its id is appended to the end of the active session's list, every other session, each session id and name, and the session order are unchanged, and text and image are reset |
| Handlers.CreateSession | src/App.jsx:160-171 | a blank or whitespace-only name changes nothing; otherwise one session with the untrimmed name and an empty list is appended after the unchanged existing sessions, and the name field is reset; `principal` stays first |
| Handlers.MoveCard | src/App.jsx:173-194 | the active session's list loses the id and keeps every other id, in order and with its multiplicity; a different target gains it once at the end; other sessions, ids and names are unchanged; every card with that id now names the target; no other card changes and the card count is the same; the move modal is cleared |
| Handlers.DeleteCard | src/App.jsx:196-210 | the remaining cards are exactly those with another id, in their old order and with their multiplicity; no session lists the id, and each list keeps every other id, in order and with its multiplicity; session ids, names and order are unchanged; the delete modal is cleared |
| Handlers.Visible | src/App.jsx:218 | the grid shows exactly the cards whose `sessaoId` is the active session, in card-list order and with their multiplicity |
| Handlers.LoadData | src/App.jsx:98-113 | a non-empty loaded collection replaces the one in memory; an empty one leaves it; a failed read changes nothing; nothing else changes |
| Invariants.InitialConsistent | src/App.jsx:82-93 | the initial state is a single empty `principal` session and no cards; it is consistent and shows no card |
| Invariants.CreateCardKeepsConsistent | src/App.jsx:138-152 | with a fresh id, creating a card keeps the two-way reference |
| Invariants.CreateCardShowsCardLast | src/App.jsx:138-145 | a created card appears at the end of the active session's grid |
| Invariants.CreateSessionKeepsConsistent | src/App.jsx:163-169 | with a fresh id, creating a session keeps the two-way reference |
| Invariants.ReassignCards | src/App.jsx:186-190 | after the move's `map` over cards, the cards are the moved card with its new session plus the untouched others, and ids stay unique |
| Invariants.MoveCardKeepsConsistent | src/App.jsx:174-190 | moving a card of the active session to another existing session keeps the two-way reference, so the target lists the id exactly once |
| Invariants.MoveCardHidesCard | src/App.jsx:186-190 | after a move to another session the card leaves the grid, and no other card enters or leaves it |
| Invariants.MoveToActiveDetaches | src/App.jsx:176-181 | moving a card to the active session itself removes its id from every list while the card still names that session, so the result is inconsistent and the move dialog's filter at line 382 is what the invariant depends on |
| Invariants.DeleteCardKeepsConsistent | src/App.jsx:198-205 | deleting any id keeps the two-way reference |
| Invariants.VisibleMatchesActiveList | src/App.jsx:218 | in a consistent state the grid shows a card with id `x` exactly when the active session lists `x` |
| Invariants.LoadIntoInitialConsistent | src/App.jsx:104-109 | a startup load with a non-empty session store yields exactly the loaded cards and sessions with `principal` active, so it is consistent exactly when they are |
| Invariants.LoadCardsWithoutSessionsDetaches | src/App.jsx:104-109 | loading cards while the session store is empty leaves them beside the empty initial `principal` session, so the merged state is not consistent |
| Invariants.StepKeepsConsistent | src/App.jsx:133-210 | every allowed user action keeps the state consistent and `principal` first |
| Invariants.RunKeepsConsistent | src/App.jsx:133-210 | any sequence of allowed actions keeps the state consistent and `principal` first |
| Invariants.ReachableConsistent | src/App.jsx:82-93 | every state the handlers and form inputs reach from the initial one by allowed actions, without loading, is consistent, with `principal` first |
| Component.ComunicaFacil.constructor | src/App.jsx:82-93 | the fields start as the initial state, which is consistent |
| Component.ComunicaFacil.LoadDados | src/App.jsx:104-109 | the fields become the load merge of the old fields |
| Component.ComunicaFacil.HandleCriarCartao | src/App.jsx:133-158 | the fields become `CreateCard` of the old fields; with a fresh id, consistency is kept |
| Component.ComunicaFacil.HandleCriarSessao | src/App.jsx:160-171 | the fields become `CreateSession` of the old fields; with a fresh id, consistency is kept; `principal` stays first |
| Component.ComunicaFacil.HandleMoverCartao | src/App.jsx:173-194 | the fields become `MoveCard` of the old fields; moving a card of the active tab to another existing tab keeps consistency |
| Component.ComunicaFacil.HandleExcluirCartao | src/App.jsx:196-210 | the fields become `DeleteCard` of the old fields, and consistency is kept |
| Component.ComunicaFacil.SelecionarSessao | src/App.jsx:231 | clicking a tab changes only the active session, and selecting an existing tab keeps consistency |
| Component.ComunicaFacil.DigitarTexto | src/App.jsx:296 | editing the card text changes only `texto` |
| Component.ComunicaFacil.EscolherImagem | src/App.jsx:290 | choosing an image changes only `imagem` |
| Component.ComunicaFacil.DigitarNomeSessao | src/App.jsx:269 | editing the session name changes only `novaSessao` |

## Left out

- IndexedDB (`initDB`, `salvarSessoes`, `carregarSessoes`, `salvarCartoes`, `carregarCartoes`, src/App.jsx:4-79) is left out. It is a browser API with asynchronous transactions. Only what `loadDados` receives is modelled, as `Option<Loaded>`. `getAll` returns records in key order, and `"1…"` sorts before `"principal"`, so after a reload `principal` is likely to come after the sessions the user made. `PrincipalFirst` is therefore proved within one visit only, not across a load.
- The save effect (src/App.jsx:119-131) is left out. It writes every collection after each change and has no logic of its own.
- The possible race between the startup load and a save is left out. `LoadData` is defined on any state, but `Action` has no load step, and no interleaving of the load with the handlers is modelled.
- `FileReader.readAsDataURL` is left out. The card's image is the caller-supplied data URL and bears no modelled relation to the chosen file's bytes. The asynchronous callback is taken as synchronous, so the active session and the text are those at the moment of the call.
- `Date.now()` is left out. Ids are parameters. Their freshness is a precondition of the invariant lemmas only, since the source never checks it.
- Speech synthesis (`lerTexto`, src/App.jsx:212-216) is left out. It is a fire-and-forget browser call.
- Rendering and styling (src/App.jsx:220-436) are left out. The exceptions are the field setters a user triggers (tab click, text, image and session-name inputs), kept so that the handlers' inputs can be set, and the move dialog's target filter (line 382), which becomes the `novaSessaoId != sessaoAtual` precondition.
- Opening and cancelling the move and delete modals (src/App.jsx:345-348, 359-361, 394-396, 423-425) are left out. They only set the flag and the cached card, which the handlers clear. The flags that toggle the two creation forms (`mostrarCriacao`, `mostrarCriacaoSessao`) are left out too, since no handler reads them.
- JavaScript type coercion is left out. Card ids are integers and session ids are strings, compared with `===`. A file input with no file gives `None`.
- Strings are sequences of Unicode scalar values here, while JavaScript strings are sequences of UTF-16 code units. A lone surrogate therefore cannot be represented. This does not affect `trim`, whose whitespace characters are all in the Basic Multilingual Plane.
