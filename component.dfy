/** The `ComunicaFacil` component as an object: each `useState` pair is a field,
    and each handler assigns the fields its setters update, in the order the
    source calls them. Each method is tied to the pure transition of the same
    handler, and so inherits the lemmas proved about it. */
module Component {
  import opened AppState
  import opened Handlers
  import opened Invariants
  import opened Text

  class ComunicaFacil {
    var cartoes: seq<Card>
    var sessoes: seq<Session>
    var sessaoAtual: SessionId
    var texto: string
    var imagem: Option<Blob>
    var novaSessao: string
    var mostrarModalMover: bool
    var cartaoParaMover: Option<Card>
    var cartaoParaExcluir: Option<Card>
    var mostrarModalExcluir: bool

    /** The fields read as one value. */
    function State(): UiState
      reads this
    {
      UiState(cartoes, sessoes, sessaoAtual, texto, imagem, novaSessao,
              mostrarModalMover, cartaoParaMover, cartaoParaExcluir, mostrarModalExcluir)
    }

    /** The `useState` initial values. */
    constructor ()
      ensures State() == Initial()
      ensures Consistent(State()) && PrincipalFirst(sessoes)
    {
      cartoes := [];
      sessoes := [Session(PRINCIPAL, "Principal", [])];
      sessaoAtual := PRINCIPAL;
      texto := "";
      imagem := None;
      novaSessao := "";
      mostrarModalMover := false;
      cartaoParaMover := None;
      cartaoParaExcluir := None;
      mostrarModalExcluir := false;
      new;
      InitialConsistent();
    }

    /** `loadDados` once both stores were read (`loaded`), or after a failed read (`None`). */
    method LoadDados(loaded: Option<Loaded>)
      modifies this
      ensures State() == LoadData(old(State()), loaded)
    {
      if loaded.Some? {
        if |loaded.value.sessoes| > 0 {
          sessoes := loaded.value.sessoes;
        }
        if |loaded.value.cartoes| > 0 {
          cartoes := loaded.value.cartoes;
        }
      }
    }

    /** `handleCriarCartao`; `id` is the `Date.now()` of the call and `dataUrl` the
        `reader.result` of the chosen image. */
    method HandleCriarCartao(id: CardId, dataUrl: string)
      modifies this
      ensures State() == CreateCard(old(State()), id, dataUrl)
      ensures old(Consistent(State())) && !HasCard(old(cartoes), id) ==> Consistent(State())
    {
      ghost var before := State();
      if texto == "" || imagem.None? {
        return;
      }
      var novo := Card(id, texto, dataUrl, sessaoAtual);
      cartoes := cartoes + [novo];
      sessoes := AppendCardId(sessoes, sessaoAtual, novo.id);
      texto := "";
      imagem := None;
      if Consistent(before) && !HasCard(before.cartoes, id) {
        CreateCardKeepsConsistent(before, id, dataUrl);
      }
    }

    /** `handleCriarSessao`; `id` is `Date.now().toString()`. */
    method HandleCriarSessao(id: SessionId)
      modifies this
      ensures State() == CreateSession(old(State()), id)
      ensures old(Consistent(State())) && !HasSession(old(sessoes), id) ==> Consistent(State())
      ensures old(PrincipalFirst(sessoes)) ==> PrincipalFirst(sessoes)
    {
      ghost var before := State();
      if Blank(novaSessao) {
        return;
      }
      var nova := Session(id, novaSessao, []);
      sessoes := sessoes + [nova];
      novaSessao := "";
      if Consistent(before) && !HasSession(before.sessoes, id) {
        CreateSessionKeepsConsistent(before, id);
      }
    }

    /** `handleMoverCartao(cartaoId, novaSessaoId)`. */
    method HandleMoverCartao(cartaoId: CardId, novaSessaoId: SessionId)
      modifies this
      ensures State() == MoveCard(old(State()), cartaoId, novaSessaoId)
      ensures old(Consistent(State())) && old(CardInSession(cartoes, cartaoId, sessaoAtual))
              && old(HasSession(sessoes, novaSessaoId)) && novaSessaoId != old(sessaoAtual)
              ==> Consistent(State())
    {
      ghost var before := State();
      sessoes := MoveCardId(sessoes, sessaoAtual, novaSessaoId, cartaoId);
      cartoes := Reassign(cartoes, cartaoId, novaSessaoId);
      mostrarModalMover := false;
      cartaoParaMover := None;
      if Consistent(before) && CardInSession(before.cartoes, cartaoId, before.sessaoAtual)
         && HasSession(before.sessoes, novaSessaoId) && novaSessaoId != before.sessaoAtual
      {
        MoveCardKeepsConsistent(before, cartaoId, novaSessaoId);
      }
    }

    /** `handleExcluirCartao(cartaoId)`. */
    method HandleExcluirCartao(cartaoId: CardId)
      modifies this
      ensures State() == DeleteCard(old(State()), cartaoId)
      ensures old(Consistent(State())) ==> Consistent(State())
    {
      ghost var before := State();
      cartoes := RemoveCard(cartoes, cartaoId);
      sessoes := StripCardId(sessoes, cartaoId);
      mostrarModalExcluir := false;
      cartaoParaExcluir := None;
      assert State() == DeleteCard(before, cartaoId);
      if Consistent(before) {
        DeleteCardKeepsConsistent(before, cartaoId);
      }
    }

    /** A session tab clicked: `setSessaoAtual(sessao.id)`. */
    method SelecionarSessao(sid: SessionId)
      modifies this
      ensures State() == old(State()).(sessaoAtual := sid)
      ensures old(Consistent(State())) && old(HasSession(sessoes, sid)) ==> Consistent(State())
    {
      sessaoAtual := sid;
    }

    /** The card text area edited: `setTexto`. */
    method DigitarTexto(t: string)
      modifies this
      ensures State() == old(State()).(texto := t)
    {
      texto := t;
    }

    /** An image file chosen: `setImagem`. */
    method EscolherImagem(img: Option<Blob>)
      modifies this
      ensures State() == old(State()).(imagem := img)
    {
      imagem := img;
    }

    /** The session name field edited: `setNovaSessao`. */
    method DigitarNomeSessao(n: string)
      modifies this
      ensures State() == old(State()).(novaSessao := n)
    {
      novaSessao := n;
    }
  }
}
