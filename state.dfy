/** The state of the `ComunicaFacil` component (src/App.jsx): the cards, the
    ordered sessions, the active session, the two creation form fields and the
    two confirmation modals; and the two-way reference between cards and
    sessions that the handlers keep in step. */
module AppState {
  import opened Seqs

  /** Card ids come from `Date.now()` (a number). */
  type CardId = int
  /** Session ids are strings: `"principal"` or `Date.now().toString()`. */
  type SessionId = string
  /** The image file chosen in the form; its content is opaque to the model. */
  type Blob = seq<bv8>

  datatype Option<T> = None | Some(value: T)

  /** `{id, texto, imagem, sessaoId}`; `imagem` is the data URL of the picture. */
  datatype Card = Card(id: CardId, texto: string, imagem: string, sessaoId: SessionId)

  /** `{id, nome, cartoes}`; `cartoes` lists the ids of the session's cards in order. */
  datatype Session = Session(id: SessionId, nome: string, cartoes: seq<CardId>)

  /** Every piece of component state that the handlers read or write. */
  datatype UiState = UiState(
    cartoes: seq<Card>,
    sessoes: seq<Session>,
    sessaoAtual: SessionId,
    texto: string,
    imagem: Option<Blob>,
    novaSessao: string,
    mostrarModalMover: bool,
    cartaoParaMover: Option<Card>,
    cartaoParaExcluir: Option<Card>,
    mostrarModalExcluir: bool)

  const PRINCIPAL: SessionId := "principal"

  /** The state the component starts with, before anything is loaded. */
  function Initial(): UiState {
    UiState(
      cartoes := [],
      sessoes := [Session(PRINCIPAL, "Principal", [])],
      sessaoAtual := PRINCIPAL,
      texto := "",
      imagem := None,
      novaSessao := "",
      mostrarModalMover := false,
      cartaoParaMover := None,
      cartaoParaExcluir := None,
      mostrarModalExcluir := false)
  }

  /** The session ids, in tab order. */
  function SessionIds(ss: seq<Session>): (r: seq<SessionId>)
    ensures |r| == |ss| && forall i :: 0 <= i < |ss| ==> r[i] == ss[i].id
  {
    seq(|ss|, i requires 0 <= i < |ss| => ss[i].id)
  }

  /** The session names, in tab order. */
  function SessionNames(ss: seq<Session>): (r: seq<string>)
    ensures |r| == |ss| && forall i :: 0 <= i < |ss| ==> r[i] == ss[i].nome
  {
    seq(|ss|, i requires 0 <= i < |ss| => ss[i].nome)
  }

  predicate HasSession(ss: seq<Session>, sid: SessionId) {
    exists i :: 0 <= i < |ss| && ss[i].id == sid
  }

  predicate HasCard(cs: seq<Card>, id: CardId) {
    exists c :: c in cs && c.id == id
  }

  /** The card `id` exists and belongs to session `sid`. */
  predicate CardInSession(cs: seq<Card>, id: CardId, sid: SessionId) {
    exists c :: c in cs && c.id == id && c.sessaoId == sid
  }

  predicate UniqueSessionIds(ss: seq<Session>) {
    forall i, j :: 0 <= i < |ss| && 0 <= j < |ss| && ss[i].id == ss[j].id ==> i == j
  }

  /** No card occurs twice and no two different cards share an id. */
  predicate UniqueCards(cs: seq<Card>) {
    && NoDup(cs)
    && forall c, d :: c in cs && d in cs && c.id == d.id ==> c == d
  }

  /** Every card names an existing session. */
  predicate Homed(cs: seq<Card>, ss: seq<Session>) {
    forall c :: c in cs ==> HasSession(ss, c.sessaoId)
  }

  /** A card's id is in exactly the list of the session its `sessaoId` names. */
  predicate Linked(cs: seq<Card>, ss: seq<Session>) {
    forall c, i :: c in cs && 0 <= i < |ss| ==> (c.id in ss[i].cartoes <==> ss[i].id == c.sessaoId)
  }

  /** Every id in a session's list is the id of some card. */
  predicate Backed(cs: seq<Card>, ss: seq<Session>) {
    forall i, x :: 0 <= i < |ss| && x in ss[i].cartoes ==> HasCard(cs, x)
  }

  predicate ListsNoDup(ss: seq<Session>) {
    forall i :: 0 <= i < |ss| ==> NoDup(ss[i].cartoes)
  }

  /** The two-way reference between cards and sessions is intact. */
  predicate Consistent(st: UiState) {
    && UniqueSessionIds(st.sessoes)
    && UniqueCards(st.cartoes)
    && HasSession(st.sessoes, st.sessaoAtual)
    && Homed(st.cartoes, st.sessoes)
    && Linked(st.cartoes, st.sessoes)
    && Backed(st.cartoes, st.sessoes)
    && ListsNoDup(st.sessoes)
  }

  /** The `principal` session is the first tab. */
  predicate PrincipalFirst(ss: seq<Session>) {
    |ss| > 0 && ss[0].id == PRINCIPAL
  }
}
