/** The four state-changing handlers of `ComunicaFacil` (src/App.jsx), the
    `cartoesNaSessaoAtual` view and the merge of loaded data, each as a pure
    transition on `UiState`. The ids that the source draws from `Date.now()`
    and the data URL that `FileReader` produces are parameters. */
module Handlers {
  import opened Seqs
  import opened Text
  import opened AppState

  /** `sessoes.map(...)` in `handleCriarCartao`: `id` appended to session `sid`'s list. */
  function AppendCardId(ss: seq<Session>, sid: SessionId, id: CardId): (r: seq<Session>)
  {
    seq(|ss|, i requires 0 <= i < |ss| =>
      if ss[i].id == sid then ss[i].(cartoes := ss[i].cartoes + [id]) else ss[i])
  }

  /** `sessoes.map(...)` in `handleMoverCartao`: the active session loses `id`,
      the target gains it at the end; the active session is tested first. */
  function MoveCardId(ss: seq<Session>, from: SessionId, to: SessionId, id: CardId): (r: seq<Session>)
  {
    seq(|ss|, i requires 0 <= i < |ss| =>
      if ss[i].id == from then ss[i].(cartoes := Without(ss[i].cartoes, id))
      else if ss[i].id == to then ss[i].(cartoes := ss[i].cartoes + [id])
      else ss[i])
  }

  /** `cartoes.map(...)` in `handleMoverCartao`: every card with id `id` now names `to`. */
  function Reassign(cs: seq<Card>, id: CardId, to: SessionId): (r: seq<Card>)
  {
    seq(|cs|, i requires 0 <= i < |cs| =>
      if cs[i].id == id then cs[i].(sessaoId := to) else cs[i])
  }

  /** `sessoes.map(...)` in `handleExcluirCartao`: `id` struck from every list. */
  function StripCardId(ss: seq<Session>, id: CardId): (r: seq<Session>)
  {
    seq(|ss|, i requires 0 <= i < |ss| => ss[i].(cartoes := Without(ss[i].cartoes, id)))
  }

  /** `r` is `cs` without the cards whose id is `id`: the other cards keep their
      order and their number of occurrences. */
  ghost predicate CardsRemoved(r: seq<Card>, cs: seq<Card>, id: CardId) {
    && (forall c :: c in r <==> c in cs && c.id != id)
    && IsSubsequence(r, cs)
    && (forall c: Card :: c.id != id ==> multiset(r)[c] == multiset(cs)[c])
  }

  /** `cartoes.filter(cartao => cartao.id !== id)`. */
  function RemoveCard(cs: seq<Card>, id: CardId): (r: seq<Card>)
    ensures forall c :: c in r <==> c in cs && c.id != id
    ensures NoDup(cs) ==> NoDup(r)
    ensures IsSubsequence(r, cs)
    ensures forall c: Card :: c.id != id ==> multiset(r)[c] == multiset(cs)[c]
  {
    var keep := (c: Card) => c.id != id;
    FilterIsSubsequence(cs, keep);
    forall c: Card | c.id != id ensures multiset(Filter(cs, keep))[c] == multiset(cs)[c] {
      FilterCounts(cs, keep, c);
    }
    assert NoDup(cs) ==> NoDup(Filter(cs, keep)) by {
      if NoDup(cs) { FilterNoDup(cs, keep); }
    }
    Filter(cs, keep)
  }

  /** `!texto || !imagem`: the guard that turns card creation into a no-op. */
  predicate CardFormIncomplete(st: UiState) {
    st.texto == "" || st.imagem.None?
  }

  /** `handleCriarCartao`, with `FileReader` taken as synchronous: `id` stands for
      `Date.now()` and `dataUrl` for `reader.result`. */
  function CreateCard(st: UiState, id: CardId, dataUrl: string): (r: UiState)
    ensures CardFormIncomplete(st) ==> r == st
    ensures !CardFormIncomplete(st) ==>
      && r.cartoes == st.cartoes + [Card(id, st.texto, dataUrl, st.sessaoAtual)]
      && SessionIds(r.sessoes) == SessionIds(st.sessoes)
      && SessionNames(r.sessoes) == SessionNames(st.sessoes)
      && (forall i :: 0 <= i < |st.sessoes| && st.sessoes[i].id == st.sessaoAtual ==>
            r.sessoes[i].cartoes == st.sessoes[i].cartoes + [id])
      && (forall i :: 0 <= i < |st.sessoes| && st.sessoes[i].id != st.sessaoAtual ==>
            r.sessoes[i] == st.sessoes[i])
      && r == st.(cartoes := r.cartoes, sessoes := r.sessoes, texto := "", imagem := None)
  {
    if CardFormIncomplete(st) then st
    else
      var novo := Card(id, st.texto, dataUrl, st.sessaoAtual);
      st.(cartoes := st.cartoes + [novo],
          sessoes := AppendCardId(st.sessoes, st.sessaoAtual, novo.id),
          texto := "",
          imagem := None)
  }

  /** `handleCriarSessao`: `id` stands for `Date.now().toString()`; the untrimmed
      name is stored. */
  function CreateSession(st: UiState, id: SessionId): (r: UiState)
    ensures Blank(st.novaSessao) ==> r == st
    ensures !Blank(st.novaSessao) ==>
      && |r.sessoes| == |st.sessoes| + 1
      && r.sessoes[..|st.sessoes|] == st.sessoes
      && r.sessoes[|st.sessoes|] == Session(id, st.novaSessao, [])
      && r == st.(sessoes := r.sessoes, novaSessao := "")
    ensures PrincipalFirst(st.sessoes) ==> PrincipalFirst(r.sessoes)
  {
    if Blank(st.novaSessao) then st
    else
      var nova := Session(id, st.novaSessao, []);
      st.(sessoes := st.sessoes + [nova], novaSessao := "")
  }

  /** `handleMoverCartao(cartaoId, novaSessaoId)`. */
  function MoveCard(st: UiState, cartaoId: CardId, novaSessaoId: SessionId): (r: UiState)
    ensures SessionIds(r.sessoes) == SessionIds(st.sessoes)
    ensures SessionNames(r.sessoes) == SessionNames(st.sessoes)
    ensures forall i :: 0 <= i < |st.sessoes| && st.sessoes[i].id == st.sessaoAtual ==>
      RemovedFrom(r.sessoes[i].cartoes, st.sessoes[i].cartoes, cartaoId)
    ensures forall i :: 0 <= i < |st.sessoes| && st.sessoes[i].id == novaSessaoId != st.sessaoAtual ==>
      r.sessoes[i].cartoes == st.sessoes[i].cartoes + [cartaoId]
    ensures forall i :: 0 <= i < |st.sessoes| && st.sessoes[i].id != st.sessaoAtual && st.sessoes[i].id != novaSessaoId ==>
      r.sessoes[i] == st.sessoes[i]
    ensures |r.cartoes| == |st.cartoes|
    ensures forall i :: 0 <= i < |st.cartoes| && st.cartoes[i].id == cartaoId ==>
      r.cartoes[i] == st.cartoes[i].(sessaoId := novaSessaoId)
    ensures forall i :: 0 <= i < |st.cartoes| && st.cartoes[i].id != cartaoId ==>
      r.cartoes[i] == st.cartoes[i]
    ensures r == st.(cartoes := r.cartoes, sessoes := r.sessoes,
                     mostrarModalMover := false, cartaoParaMover := None)
  {
    st.(sessoes := MoveCardId(st.sessoes, st.sessaoAtual, novaSessaoId, cartaoId),
        cartoes := Reassign(st.cartoes, cartaoId, novaSessaoId),
        mostrarModalMover := false,
        cartaoParaMover := None)
  }

  /** `handleExcluirCartao(cartaoId)`. */
  function DeleteCard(st: UiState, cartaoId: CardId): (r: UiState)
    ensures CardsRemoved(r.cartoes, st.cartoes, cartaoId)
    ensures !HasCard(r.cartoes, cartaoId)
    ensures SessionIds(r.sessoes) == SessionIds(st.sessoes)
    ensures SessionNames(r.sessoes) == SessionNames(st.sessoes)
    ensures forall i :: 0 <= i < |st.sessoes| ==>
      RemovedFrom(r.sessoes[i].cartoes, st.sessoes[i].cartoes, cartaoId)
    ensures r == st.(cartoes := r.cartoes, sessoes := r.sessoes,
                     mostrarModalExcluir := false, cartaoParaExcluir := None)
  {
    st.(cartoes := RemoveCard(st.cartoes, cartaoId),
        sessoes := StripCardId(st.sessoes, cartaoId),
        mostrarModalExcluir := false,
        cartaoParaExcluir := None)
  }

  /** `cartoesNaSessaoAtual`: the cards shown in the grid. */
  function Visible(st: UiState): (r: seq<Card>)
    ensures forall c :: c in r <==> c in st.cartoes && c.sessaoId == st.sessaoAtual
    ensures IsSubsequence(r, st.cartoes)
    ensures forall c: Card :: c.sessaoId == st.sessaoAtual ==> multiset(r)[c] == multiset(st.cartoes)[c]
  {
    var keep := (c: Card) => c.sessaoId == st.sessaoAtual;
    FilterIsSubsequence(st.cartoes, keep);
    assert forall c :: keep(c) ==> multiset(Filter(st.cartoes, keep))[c] == multiset(st.cartoes)[c] by {
      forall c | keep(c)
        ensures multiset(Filter(st.cartoes, keep))[c] == multiset(st.cartoes)[c]
      {
        FilterCounts(st.cartoes, keep, c);
      }
    }
    Filter(st.cartoes, keep)
  }

  /** What `loadDados` receives: both stores' records, or nothing when a read failed. */
  datatype Loaded = Loaded(cartoes: seq<Card>, sessoes: seq<Session>)

  /** The merge in `loadDados`: a loaded collection replaces the one in memory only
      when it is non-empty; a failed load (the `catch`) changes nothing. */
  function LoadData(st: UiState, loaded: Option<Loaded>): (r: UiState)
    ensures loaded.None? ==> r == st
    ensures loaded.Some? ==>
      && r.sessoes == (if |loaded.value.sessoes| > 0 then loaded.value.sessoes else st.sessoes)
      && r.cartoes == (if |loaded.value.cartoes| > 0 then loaded.value.cartoes else st.cartoes)
      && r == st.(cartoes := r.cartoes, sessoes := r.sessoes)
  {
    match loaded
    case None => st
    case Some(Loaded(lc, ls)) =>
      var st1 := if |ls| > 0 then st.(sessoes := ls) else st;
      if |lc| > 0 then st1.(cartoes := lc) else st1
  }
}
