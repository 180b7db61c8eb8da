/** What the handlers promise about the two-way reference between cards and
    sessions, about the visible grid, and about every state the component can
    reach from its initial one. */
module Invariants {
  import opened Seqs
  import opened Text
  import opened AppState
  import opened Handlers

  /** Two session lists with the same ids in the same order have the same sessions
      by id, and one has unique ids exactly when the other has. */
  lemma SameSessionIds(ss: seq<Session>, ss': seq<Session>)
    requires SessionIds(ss) == SessionIds(ss')
    ensures |ss| == |ss'| && forall i :: 0 <= i < |ss| ==> ss[i].id == ss'[i].id
    ensures forall sid :: HasSession(ss, sid) <==> HasSession(ss', sid)
    ensures UniqueSessionIds(ss) <==> UniqueSessionIds(ss')
  {
  }

  /** The state the component starts with is consistent, starts with `principal`
      and shows no card. */
  lemma InitialConsistent()
    ensures Consistent(Initial())
    ensures PrincipalFirst(Initial().sessoes)
    ensures Initial().sessoes == [Session(PRINCIPAL, "Principal", [])] && Initial().cartoes == []
    ensures Visible(Initial()) == []
  {
  }

  /** Creating a card with a fresh id keeps the two-way reference. */
  lemma CreateCardKeepsConsistent(st: UiState, id: CardId, dataUrl: string)
    requires Consistent(st) && !HasCard(st.cartoes, id)
    ensures Consistent(CreateCard(st, id, dataUrl))
  {
    if !CardFormIncomplete(st) {
      var r := CreateCard(st, id, dataUrl);
      var cs, ss, a := st.cartoes, st.sessoes, st.sessaoAtual;
      var nc := Card(id, st.texto, dataUrl, a);
      SameSessionIds(ss, r.sessoes);
      assert nc !in cs;
      NoDupSnoc(cs, nc);
      assert UniqueCards(r.cartoes);
      forall c, i | c in r.cartoes && 0 <= i < |ss|
        ensures c.id in r.sessoes[i].cartoes <==> r.sessoes[i].id == c.sessaoId
      {
        if c == nc {
          if ss[i].id != a {
            assert id !in ss[i].cartoes;
          }
        } else {
          assert c in cs;
        }
      }
      forall i, x | 0 <= i < |ss| && x in r.sessoes[i].cartoes
        ensures HasCard(r.cartoes, x)
      {
        if x != id {
          assert x in ss[i].cartoes;
          assert HasCard(cs, x);
          var c :| c in cs && c.id == x;
          assert c in r.cartoes;
        } else {
          assert nc in r.cartoes;
        }
      }
      forall i | 0 <= i < |ss| ensures NoDup(r.sessoes[i].cartoes) {
        if ss[i].id == a {
          assert id !in ss[i].cartoes;
          NoDupSnoc(ss[i].cartoes, id);
        }
      }
      assert Homed(r.cartoes, r.sessoes) by {
        forall c | c in r.cartoes ensures HasSession(r.sessoes, c.sessaoId) {
          if c != nc { assert c in cs; }
        }
      }
    }
  }

  /** A new card appears at the end of the grid of the active session. */
  lemma CreateCardShowsCardLast(st: UiState, id: CardId, dataUrl: string)
    requires !CardFormIncomplete(st)
    ensures Visible(CreateCard(st, id, dataUrl)) == Visible(st) + [Card(id, st.texto, dataUrl, st.sessaoAtual)]
  {
    var keep := (c: Card) => c.sessaoId == st.sessaoAtual;
    FilterSnoc(st.cartoes, Card(id, st.texto, dataUrl, st.sessaoAtual), keep);
  }

  /** Creating a session with a fresh id keeps the two-way reference. */
  lemma CreateSessionKeepsConsistent(st: UiState, id: SessionId)
    requires Consistent(st) && !HasSession(st.sessoes, id)
    ensures Consistent(CreateSession(st, id))
  {
    if !Blank(st.novaSessao) {
      var r := CreateSession(st, id);
      var ss, n := st.sessoes, |st.sessoes|;
      assert r.sessoes == ss + [Session(id, st.novaSessao, [])];
      assert forall i :: 0 <= i < n ==> r.sessoes[i] == ss[i] && ss[i].id != id;
      forall sid | HasSession(ss, sid) ensures HasSession(r.sessoes, sid) {
        var i :| 0 <= i < n && ss[i].id == sid;
        assert r.sessoes[i] == ss[i];
      }
      forall c, i | c in r.cartoes && 0 <= i < n + 1
        ensures c.id in r.sessoes[i].cartoes <==> r.sessoes[i].id == c.sessaoId
      {
        if i < n {
          assert r.sessoes[i] == ss[i];
        } else {
          assert HasSession(ss, c.sessaoId);
        }
      }
      forall i, x | 0 <= i < n + 1 && x in r.sessoes[i].cartoes
        ensures HasCard(r.cartoes, x)
      {
        assert r.sessoes[i] == ss[i];
      }
      forall i | 0 <= i < n + 1 ensures NoDup(r.sessoes[i].cartoes) {
        if i < n { assert r.sessoes[i] == ss[i]; }
      }
    }
  }

  /** The card list after a move: the moved card carries its new session, every
      other card is untouched, and ids stay unique. */
  lemma ReassignCards(cs: seq<Card>, m: Card, to: SessionId)
    requires UniqueCards(cs) && m in cs
    ensures UniqueCards(Reassign(cs, m.id, to))
    ensures forall c :: c in Reassign(cs, m.id, to) <==> c == m.(sessaoId := to) || (c in cs && c.id != m.id)
  {
    var r := Reassign(cs, m.id, to);
    var m' := m.(sessaoId := to);
    forall k | 0 <= k < |cs|
      ensures r[k] == if cs[k].id == m.id then m' else cs[k]
    {
      if cs[k].id == m.id { assert cs[k] == m; }
    }
    assert m' in r by {
      var k :| 0 <= k < |cs| && cs[k] == m;
    }
    forall c | c in cs && c.id != m.id ensures c in r {
      var k :| 0 <= k < |cs| && cs[k] == c;
    }
    forall c | c in r ensures c == m' || (c in cs && c.id != m.id) {
      var k :| 0 <= k < |cs| && r[k] == c;
    }
    forall i, j | 0 <= i < |cs| && 0 <= j < |cs| && i != j
      ensures r[i] != r[j]
    {
    }
  }

  /** Moving a card of the active session to another existing session keeps the
      two-way reference. */
  lemma MoveCardKeepsConsistent(st: UiState, cartaoId: CardId, novaSessaoId: SessionId)
    requires Consistent(st)
    requires CardInSession(st.cartoes, cartaoId, st.sessaoAtual)
    requires HasSession(st.sessoes, novaSessaoId) && novaSessaoId != st.sessaoAtual
    ensures Consistent(MoveCard(st, cartaoId, novaSessaoId))
  {
    var r := MoveCard(st, cartaoId, novaSessaoId);
    var cs, ss, a, t := st.cartoes, st.sessoes, st.sessaoAtual, novaSessaoId;
    var m :| m in cs && m.id == cartaoId && m.sessaoId == a;
    var m' := m.(sessaoId := t);
    SameSessionIds(ss, r.sessoes);
    ReassignCards(cs, m, t);
    assert Linked(r.cartoes, r.sessoes) by {
      forall c, i | c in r.cartoes && 0 <= i < |ss|
        ensures c.id in r.sessoes[i].cartoes <==> r.sessoes[i].id == c.sessaoId
      {
        if c == m' {
          if ss[i].id != a && ss[i].id != t {
            assert cartaoId !in ss[i].cartoes;
          }
        } else {
          assert c in cs && c.id != cartaoId;
        }
      }
    }
    assert Backed(r.cartoes, r.sessoes) by {
      forall i, x | 0 <= i < |ss| && x in r.sessoes[i].cartoes
        ensures HasCard(r.cartoes, x)
      {
        if x != cartaoId {
          assert x in ss[i].cartoes;
          assert HasCard(cs, x);
          var c :| c in cs && c.id == x;
          assert c in r.cartoes;
        } else {
          assert m' in r.cartoes;
        }
      }
    }
    assert ListsNoDup(r.sessoes) by {
      forall i | 0 <= i < |ss| ensures NoDup(r.sessoes[i].cartoes) {
        if ss[i].id == t {
          assert cartaoId !in ss[i].cartoes;
          NoDupSnoc(ss[i].cartoes, cartaoId);
        }
      }
    }
    assert Homed(r.cartoes, r.sessoes) by {
      forall c | c in r.cartoes ensures HasSession(r.sessoes, c.sessaoId) {
        if c != m' { assert c in cs; }
      }
    }
  }

  /** The move takes the card off the grid and leaves every other visible card
      where it was. */
  lemma MoveCardHidesCard(st: UiState, cartaoId: CardId, novaSessaoId: SessionId)
    requires novaSessaoId != st.sessaoAtual
    ensures !HasCard(Visible(MoveCard(st, cartaoId, novaSessaoId)), cartaoId)
    ensures forall c: Card :: c.id != cartaoId ==>
      (c in Visible(MoveCard(st, cartaoId, novaSessaoId)) <==> c in Visible(st))
  {
  }

  /** Moving a card to the session it is already in (a target the move dialog
      does not offer) detaches it: the active session is tested first, so the id
      is only removed and the card's `sessaoId` still names that session. */
  lemma MoveToActiveDetaches(st: UiState, cartaoId: CardId)
    requires Consistent(st) && CardInSession(st.cartoes, cartaoId, st.sessaoAtual)
    ensures forall i :: 0 <= i < |st.sessoes| ==> cartaoId !in MoveCard(st, cartaoId, st.sessaoAtual).sessoes[i].cartoes
    ensures CardInSession(MoveCard(st, cartaoId, st.sessaoAtual).cartoes, cartaoId, st.sessaoAtual)
    ensures !Consistent(MoveCard(st, cartaoId, st.sessaoAtual))
  {
  }

  /** Deleting a card keeps the two-way reference, whatever the id. */
  lemma DeleteCardKeepsConsistent(st: UiState, cartaoId: CardId)
    requires Consistent(st)
    ensures Consistent(DeleteCard(st, cartaoId))
  {
    var r := DeleteCard(st, cartaoId);
    var cs, ss := st.cartoes, st.sessoes;
    SameSessionIds(ss, r.sessoes);
    forall i, x | 0 <= i < |ss| && x in r.sessoes[i].cartoes
      ensures HasCard(r.cartoes, x)
    {
      assert x in ss[i].cartoes;
      assert HasCard(cs, x);
      var c :| c in cs && c.id == x;
      assert c in r.cartoes;
    }
    forall i | 0 <= i < |ss| ensures NoDup(r.sessoes[i].cartoes) {
      assert r.sessoes[i].cartoes == Without(ss[i].cartoes, cartaoId);
    }
    assert Homed(r.cartoes, r.sessoes);
  }

  /** In a consistent state the grid shows exactly the cards whose ids the active
      session lists. */
  lemma VisibleMatchesActiveList(st: UiState, i: nat)
    requires Consistent(st) && i < |st.sessoes| && st.sessoes[i].id == st.sessaoAtual
    ensures forall x :: x in st.sessoes[i].cartoes <==> HasCard(Visible(st), x)
  {
    forall x | x in st.sessoes[i].cartoes ensures HasCard(Visible(st), x) {
      assert HasCard(st.cartoes, x);
      var c :| c in st.cartoes && c.id == x;
      assert c in Visible(st);
    }
  }

  /** Loading a non-empty session store at startup yields the loaded records with
      `principal` active, so the merged state is consistent exactly when they are. */
  lemma LoadIntoInitialConsistent(lc: seq<Card>, ls: seq<Session>)
    requires |ls| > 0
    ensures LoadData(Initial(), Some(Loaded(lc, ls))) == Initial().(cartoes := lc, sessoes := ls)
    ensures Consistent(LoadData(Initial(), Some(Loaded(lc, ls))))
        <==> Consistent(Initial().(cartoes := lc, sessoes := ls))
  {
  }

  /** Cards loaded without any stored session are attached to no list of the
      initial `principal` session, so the merged state is not consistent. */
  lemma LoadCardsWithoutSessionsDetaches(lc: seq<Card>)
    requires |lc| > 0
    ensures !Consistent(LoadData(Initial(), Some(Loaded(lc, []))))
  {
    assert lc[0] in LoadData(Initial(), Some(Loaded(lc, []))).cartoes;
  }

  /** The user actions of the component: the four handlers and the inputs they read. */
  datatype Action =
    | CriarCartao(id: CardId, dataUrl: string)
    | CriarSessao(sessionId: SessionId)
    | MoverCartao(cartaoId: CardId, novaSessaoId: SessionId)
    | ExcluirCartao(excluido: CardId)
    | SelecionarSessao(selecionada: SessionId)
    | DigitarTexto(texto: string)
    | EscolherImagem(imagem: Option<Blob>)
    | DigitarNomeSessao(nome: string)

  /** One action applied to the state. */
  function Step(st: UiState, act: Action): UiState {
    match act
    case CriarCartao(id, url) => CreateCard(st, id, url)
    case CriarSessao(id) => CreateSession(st, id)
    case MoverCartao(cid, to) => MoveCard(st, cid, to)
    case ExcluirCartao(cid) => DeleteCard(st, cid)
    case SelecionarSessao(sid) => st.(sessaoAtual := sid)
    case DigitarTexto(t) => st.(texto := t)
    case EscolherImagem(img) => st.(imagem := img)
    case DigitarNomeSessao(n) => st.(novaSessao := n)
  }

  /** What the interface guarantees before an action: fresh `Date.now()` ids, a
      card of the grid moved to another tab, a tab that exists. */
  predicate Allowed(st: UiState, act: Action) {
    match act
    case CriarCartao(id, _) => !HasCard(st.cartoes, id)
    case CriarSessao(id) => !HasSession(st.sessoes, id)
    case MoverCartao(cid, to) =>
      CardInSession(st.cartoes, cid, st.sessaoAtual) && HasSession(st.sessoes, to) && to != st.sessaoAtual
    case ExcluirCartao(_) => true
    case SelecionarSessao(sid) => HasSession(st.sessoes, sid)
    case DigitarTexto(_) => true
    case EscolherImagem(_) => true
    case DigitarNomeSessao(_) => true
  }

  /** The actions applied in order. */
  function Run(st: UiState, acts: seq<Action>): UiState
    decreases |acts|
  {
    if acts == [] then st else Run(Step(st, acts[0]), acts[1..])
  }

  /** Every action is allowed in the state the earlier ones lead to. */
  predicate AllAllowed(st: UiState, acts: seq<Action>)
    decreases |acts|
  {
    acts == [] || (Allowed(st, acts[0]) && AllAllowed(Step(st, acts[0]), acts[1..]))
  }

  /** One allowed action keeps the state consistent and `principal` first. */
  lemma StepKeepsConsistent(st: UiState, act: Action)
    requires Consistent(st) && PrincipalFirst(st.sessoes) && Allowed(st, act)
    ensures Consistent(Step(st, act)) && PrincipalFirst(Step(st, act).sessoes)
  {
    match act
    case CriarCartao(id, url) =>
      CreateCardKeepsConsistent(st, id, url);
      SameSessionIds(st.sessoes, Step(st, act).sessoes);
    case CriarSessao(id) =>
      CreateSessionKeepsConsistent(st, id);
    case MoverCartao(cid, to) =>
      MoveCardKeepsConsistent(st, cid, to);
      SameSessionIds(st.sessoes, Step(st, act).sessoes);
    case ExcluirCartao(cid) =>
      DeleteCardKeepsConsistent(st, cid);
      SameSessionIds(st.sessoes, Step(st, act).sessoes);
    case SelecionarSessao(_) =>
    case DigitarTexto(_) =>
    case EscolherImagem(_) =>
    case DigitarNomeSessao(_) =>
  }

  /** Allowed actions from a consistent state with `principal` first keep it so. */
  lemma {:induction false} RunKeepsConsistent(st: UiState, acts: seq<Action>)
    requires Consistent(st) && PrincipalFirst(st.sessoes) && AllAllowed(st, acts)
    ensures Consistent(Run(st, acts)) && PrincipalFirst(Run(st, acts).sessoes)
    decreases |acts|
  {
    if acts != [] {
      StepKeepsConsistent(st, acts[0]);
      RunKeepsConsistent(Step(st, acts[0]), acts[1..]);
    }
  }

  /** The same, from the state the component starts with. */
  lemma ReachableConsistent(acts: seq<Action>)
    requires AllAllowed(Initial(), acts)
    ensures Consistent(Run(Initial(), acts)) && PrincipalFirst(Run(Initial(), acts).sessoes)
  {
    InitialConsistent();
    RunKeepsConsistent(Initial(), acts);
  }
}
