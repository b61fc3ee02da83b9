/** The photo-area selector of static/js/script.js: two clicks on the
    preview pick two corners, the second click puts them in order, and
    saving sends the area only when it is at least 50 pixels each way.

    Click positions enter already rounded (`Math.round`), relative to the
    image. The DOM updates, status messages, alerts and the request itself
    are not part of this model; `Salvar` returns the payload it would send. */
module Selecao {
  import opened Base

  /** `this.coordenadas`: the two corners. */
  datatype Coordenadas = Coordenadas(x1: int, y1: int, x2: int, y2: int)

  const Zero: Coordenadas := Coordenadas(0, 0, 0, 0)

  /** Smallest width and height `salvar` accepts. */
  const AreaMinima: int := 50

  function Largura(c: Coordenadas): int { c.x2 - c.x1 }
  function Altura(c: Coordenadas): int { c.y2 - c.y1 }

  /** The corners after a first click at (x, y). */
  function PrimeiroClique(c: Coordenadas, x: int, y: int): (r: Coordenadas)
    ensures r.x1 == x && r.y1 == y && r.x2 == c.x2 && r.y2 == c.y2
  {
    c.(x1 := x, y1 := y)
  }

  /** The corners after a second click at (x, y): the box spanned by the
      stored first corner and the click. The corners are in order, the
      width and height are not negative, and each axis holds exactly the
      two clicked values. */
  function SegundoClique(c: Coordenadas, x: int, y: int): (r: Coordenadas)
    ensures r.x1 <= r.x2 && r.y1 <= r.y2 && Largura(r) >= 0 && Altura(r) >= 0
    ensures multiset{r.x1, r.x2} == multiset{c.x1, x} && multiset{r.y1, r.y2} == multiset{c.y1, y}
  {
    Coordenadas(Min(c.x1, x), Min(c.y1, y), Max(c.x1, x), Max(c.y1, y))
  }

  /** A completed selection depends only on its two clicks: not on what the
      corners were before, nor on which corner was clicked first. */
  lemma SelecaoSoDependeDosCliques(c: Coordenadas, c': Coordenadas, a: int, b: int, x: int, y: int)
    ensures SegundoClique(PrimeiroClique(c, a, b), x, y) == SegundoClique(PrimeiroClique(c', a, b), x, y)
    ensures SegundoClique(PrimeiroClique(c, a, b), x, y) == SegundoClique(PrimeiroClique(c, x, y), a, b)
  {
  }

  /** The guard of `salvar`: the payload is the corners unchanged, unless
      the width or the height is under 50, when nothing is sent. */
  function AreaPayload(c: Coordenadas): (r: Option<Coordenadas>)
    ensures r.None? <==> Largura(c) < AreaMinima || Altura(c) < AreaMinima
    ensures r.Some? ==> r.value == c
  {
    if Largura(c) < AreaMinima || Altura(c) < AreaMinima then None else Some(c)
  }

  /** A two-click selection can be saved exactly when the clicks are at
      least 50 apart on both axes, whichever order they came in. */
  lemma SelecaoSalvavel(c: Coordenadas, a: int, b: int, x: int, y: int)
    ensures var r := SegundoClique(PrimeiroClique(c, a, b), x, y);
            AreaPayload(r).Some? <==> (x - a >= 50 || a - x >= 50) && (y - b >= 50 || b - y >= 50)
  {
  }

  /** What `carregarAreaExistente` reads from the page: the parsed list of
      the 'area-salva' field, or None when the field is missing, empty or
      not valid JSON. */
  function CarregadaDe(c: Coordenadas, salva: Option<seq<int>>): (r: Coordenadas)
    ensures salva.Some? && |salva.value| >= 4 ==>
              r == Coordenadas(salva.value[0], salva.value[1], salva.value[2], salva.value[3])
    ensures !(salva.Some? && |salva.value| >= 4) ==> r == c
  {
    if salva.Some? && |salva.value| >= 4 then
      Coordenadas(salva.value[0], salva.value[1], salva.value[2], salva.value[3])
    else c
  }

  /** Loading does not put the corners in order: a saved area may come
      back with negative width, which `salvar` then refuses. */
  lemma CarregarNaoValida()
    ensures var r := CarregadaDe(Zero, Some([100, 100, 0, 0]));
            r.x1 > r.x2 && AreaPayload(r).None?
  {
  }

  class AreaSelecao {
    var coordenadas: Coordenadas
    /** 0: the next click is the first corner; 1: it is the second. */
    var cliqueAtual: int

    ghost predicate Valid()
      reads this
    {
      cliqueAtual == 0 || cliqueAtual == 1
    }

    /** `constructor`, whose `inicializar` ends by loading a saved area. */
    constructor (salva: Option<seq<int>>)
      ensures Valid() && cliqueAtual == 0
      ensures coordenadas == CarregadaDe(Zero, salva)
    {
      coordenadas := Zero;
      cliqueAtual := 0;
      new;
      CarregarAreaExistente(salva);
    }

    /** `clicar(event)` with the rounded position (x, y). */
    method Clicar(x: int, y: int)
      requires Valid()
      modifies this
      ensures Valid()
      ensures cliqueAtual == 1 - old(cliqueAtual)
      ensures old(cliqueAtual) == 0 ==> coordenadas == PrimeiroClique(old(coordenadas), x, y)
      ensures old(cliqueAtual) == 1 ==> coordenadas == SegundoClique(old(coordenadas), x, y)
    {
      if cliqueAtual == 0 {
        coordenadas := coordenadas.(x1 := x, y1 := y);
        cliqueAtual := 1;
      } else {
        coordenadas := coordenadas.(x2 := x, y2 := y);
        if coordenadas.x2 < coordenadas.x1 {
          coordenadas := coordenadas.(x1 := coordenadas.x2, x2 := coordenadas.x1);
        }
        if coordenadas.y2 < coordenadas.y1 {
          coordenadas := coordenadas.(y1 := coordenadas.y2, y2 := coordenadas.y1);
        }
        cliqueAtual := 0;
      }
    }

    /** `carregarAreaExistente()`: the first four entries become x1, y1,
        x2, y2 as they are; the click counter is left alone. */
    method CarregarAreaExistente(salva: Option<seq<int>>)
      modifies this
      ensures coordenadas == CarregadaDe(old(coordenadas), salva)
      ensures cliqueAtual == old(cliqueAtual)
    {
      if salva.Some? {
        var area := salva.value;
        if |area| >= 4 {
          coordenadas := Coordenadas(area[0], area[1], area[2], area[3]);
        }
      }
    }

    /** The width and height `mostrarCoordenadas` displays. */
    method MostrarCoordenadas() returns (largura: int, altura: int)
      ensures largura == Largura(coordenadas) && altura == Altura(coordenadas)
      ensures largura < AreaMinima || altura < AreaMinima <==> AreaPayload(coordenadas).None?
    {
      largura := coordenadas.x2 - coordenadas.x1;
      altura := coordenadas.y2 - coordenadas.y1;
    }

    /** `limpar()` */
    method Limpar()
      modifies this
      ensures Valid() && cliqueAtual == 0 && coordenadas == Zero
    {
      cliqueAtual := 0;
      coordenadas := Zero;
    }

    /** `salvar()`: the body of the request it sends, if any. */
    method Salvar() returns (enviado: Option<Coordenadas>)
      ensures enviado.None? <==> Largura(coordenadas) < AreaMinima || Altura(coordenadas) < AreaMinima
      ensures enviado.Some? ==> enviado.value == coordenadas
    {
      var largura := coordenadas.x2 - coordenadas.x1;
      var altura := coordenadas.y2 - coordenadas.y1;
      if largura < AreaMinima || altura < AreaMinima {
        return None;
      }
      enviado := Some(coordenadas);
    }
  }
}
