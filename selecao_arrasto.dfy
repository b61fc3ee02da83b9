/** The photo-area selector embedded in criar_projeto.py (the first
    version of static/js/script.js): press and drag over the preview.
    Every move redraws the selection box from the two corners (left/top at
    the smaller coordinate, width/height the distance) and writes the
    rounded area into the 'coordenadas-area' field; releasing reads the
    box back from its style strings and sends `[x, y, x + width, y + height]`.

    Positions are the unrounded offsets `clientX - rect.left` and
    `clientY - rect.top`, so they are reals here. The field takes
    `Math.round` of them while the sent area takes `parseInt` of the
    "...px" strings, which truncates toward zero: the two can differ.
    Mouse and touch handlers do the same thing and share one method here.
    The request itself is not part of this model; `FinalizarSelecao`
    returns the area it would send. */
module SelecaoArrasto {
  import opened Camadas
  import opened Base
  import opened Selecao

  /** The two corners, `this.coordenadas`, at mouse precision. */
  datatype Pontos = Pontos(x1: real, y1: real, x2: real, y2: real)

  const Origem: Pontos := Pontos(0.0, 0.0, 0.0, 0.0)

  function MinR(a: real, b: real): real { if a <= b then a else b }

  function AbsR(n: real): (r: real)
    ensures r >= 0.0 && (r == n || r == -n)
  {
    if n < 0.0 then -n else n
  }

  /** `Math.round(x)`: the nearest integer, halves rounded up. */
  function Round(x: real): (r: int)
    ensures r as real - 0.5 <= x < r as real + 0.5
  {
    (x + 0.5).Floor
  }

  /** `parseInt(x + 'px')`: the digits before the decimal point, i.e. `x`
      truncated toward zero. */
  function ParseIntPx(x: real): (r: int)
    ensures x >= 0.0 ==> 0 <= r && r as real <= x < r as real + 1.0
  {
    TruncInt(x)
  }

  /** The selection div's left, top, width and height, in pixels. */
  datatype Caixa = Caixa(left: real, top: real, width: real, height: real)

  /** `atualizarSelecao`'s box for the corners `c`: it starts at the
      smaller coordinate on each axis and reaches the larger one. */
  function CaixaDe(c: Pontos): (b: Caixa)
    ensures b.width >= 0.0 && b.height >= 0.0
    ensures b.left <= c.x1 && b.left <= c.x2 && (b.left == c.x1 || b.left == c.x2)
    ensures b.top <= c.y1 && b.top <= c.y2 && (b.top == c.y1 || b.top == c.y2)
    ensures b.left + b.width >= c.x1 && b.left + b.width >= c.x2
            && (b.left + b.width == c.x1 || b.left + b.width == c.x2)
    ensures b.top + b.height >= c.y1 && b.top + b.height >= c.y2
            && (b.top + b.height == c.y1 || b.top + b.height == c.y2)
  {
    Caixa(MinR(c.x1, c.x2), MinR(c.y1, c.y2), AbsR(c.x2 - c.x1), AbsR(c.y2 - c.y1))
  }

  /** The text `atualizarSelecao` writes into the 'coordenadas-area' field. */
  function CampoDe(b: Caixa): (r: seq<int>)
    ensures |r| == 4
  {
    [Round(b.left), Round(b.top), Round(b.left + b.width), Round(b.top + b.height)]
  }

  /** The area `salvarArea` builds from the box's style strings. */
  function AreaDe(b: Caixa): (r: seq<int>)
    ensures |r| == 4
    ensures b.width >= 0.0 ==> r[0] <= r[2]
    ensures b.height >= 0.0 ==> r[1] <= r[3]
  {
    [ParseIntPx(b.left), ParseIntPx(b.top), ParseIntPx(b.left) + ParseIntPx(b.width),
     ParseIntPx(b.top) + ParseIntPx(b.height)]
  }

  /** Every value of the box is a whole number of pixels. */
  predicate Inteira(b: Caixa)
  {
    b.left == b.left.Floor as real && b.top == b.top.Floor as real
    && b.width == b.width.Floor as real && b.height == b.height.Floor as real
  }

  /** The area sent is ordered on both axes whichever way the drag went,
      and swapping the corners draws the same box. */
  lemma AreaNormalizada(c: Pontos)
    ensures AreaDe(CaixaDe(c))[0] <= AreaDe(CaixaDe(c))[2] && AreaDe(CaixaDe(c))[1] <= AreaDe(CaixaDe(c))[3]
    ensures CaixaDe(c) == CaixaDe(Pontos(c.x2, c.y2, c.x1, c.y1))
  {
  }

  lemma InteiroInalterado(n: int)
    ensures Round(n as real) == n && ParseIntPx(n as real) == n
  {
  }

  /** On whole-pixel boxes the field and the sent area agree. */
  lemma CampoIgualAreaSeInteira(b: Caixa)
    requires Inteira(b)
    ensures CampoDe(b) == AreaDe(b)
  {
    InteiroInalterado(b.left.Floor);
    InteiroInalterado(b.top.Floor);
    InteiroInalterado(b.width.Floor);
    InteiroInalterado(b.height.Floor);
    InteiroInalterado(b.left.Floor + b.width.Floor);
    InteiroInalterado(b.top.Floor + b.height.Floor);
  }

  /** Off whole pixels they do not: press at x = 10.6 and drag to x = 60.2.
      The field shows x from 11 to 60; the request sends 10 to 59
      (10 + parseInt("49.6px")). */
  lemma CampoDifereDoEnviado()
    ensures var b := CaixaDe(Pontos(10.6, 20.0, 60.2, 80.0));
            CampoDe(b)[0] == 11 && CampoDe(b)[2] == 60 && AreaDe(b)[0] == 10 && AreaDe(b)[2] == 59
  {
    var b := CaixaDe(Pontos(10.6, 20.0, 60.2, 80.0));
    assert b.left == 10.6 && b.width == 49.6;
    assert Round(10.6) == 11;
    assert Round(10.6 + 49.6) == 60;
    assert ParseIntPx(10.6) == 10;
    assert ParseIntPx(49.6) == 49;
  }

  /** How far apart the two can be, for a box inside the image (left and
      top not negative): a left or top entry by at most one, a right or
      bottom entry by at most two, the field never below the area sent. */
  lemma CampoMenosEnviado(b: Caixa)
    requires b.left >= 0.0 && b.top >= 0.0 && b.width >= 0.0 && b.height >= 0.0
    ensures 0 <= CampoDe(b)[0] - AreaDe(b)[0] <= 1 && 0 <= CampoDe(b)[1] - AreaDe(b)[1] <= 1
    ensures 0 <= CampoDe(b)[2] - AreaDe(b)[2] <= 2 && 0 <= CampoDe(b)[3] - AreaDe(b)[3] <= 2
  {
  }

  /** The gap of two is reached: press at x = 0.75, drag to x = 2.5. The
      field shows x2 = 3 (round 2.5); the request sends 0 + parseInt("1.75px") = 1. */
  lemma CampoDifereDeDois()
    ensures var b := CaixaDe(Pontos(0.75, 0.0, 2.5, 0.0));
            CampoDe(b)[2] == 3 && AreaDe(b)[2] == 1
  {
    var b := CaixaDe(Pontos(0.75, 0.0, 2.5, 0.0));
    assert b.left == 0.75 && b.width == 1.75;
    assert Round(0.75 + 1.75) == 3;
    assert ParseIntPx(0.75) == 0;
    assert ParseIntPx(1.75) == 1;
  }

  lemma CaixaDeInteiros(a: int, b: int, x: int, y: int)
    ensures CaixaDe(Pontos(a as real, b as real, x as real, y as real))
            == Caixa(Min(a, x) as real, Min(b, y) as real, (Max(a, x) - Min(a, x)) as real, (Max(b, y) - Min(b, y)) as real)
  {
  }

  /** Both selectors agree on whole-pixel points: the drag selector's field
      and sent area, pressing at (a, b) and last dragging to (x, y), are the
      two-click selector's corners after clicks at the same points. */
  lemma ArrastoIgualCliques(c: Coordenadas, a: int, b: int, x: int, y: int)
    ensures var cliques := SegundoClique(PrimeiroClique(c, a, b), x, y);
            var caixa := CaixaDe(Pontos(a as real, b as real, x as real, y as real));
            AreaDe(caixa) == [cliques.x1, cliques.y1, cliques.x2, cliques.y2]
            && CampoDe(caixa) == AreaDe(caixa)
  {
    CliquesDe(c, a, b, x, y);
    CaixaDeInteiros(a, b, x, y);
    CaixaInteira(Min(a, x), Min(b, y), Max(a, x) - Min(a, x), Max(b, y) - Min(b, y));
  }

  lemma CliquesDe(c: Coordenadas, a: int, b: int, x: int, y: int)
    ensures SegundoClique(PrimeiroClique(c, a, b), x, y) == Coordenadas(Min(a, x), Min(b, y), Max(a, x), Max(b, y))
  {
  }

  /** A box given in whole pixels is read back exactly, by both readers. */
  lemma CaixaInteira(l: int, t: int, w: int, h: int)
    ensures var caixa := Caixa(l as real, t as real, w as real, h as real);
            AreaDe(caixa) == [l, t, l + w, t + h] && CampoDe(caixa) == [l, t, l + w, t + h]
  {
    InteiroInalterado(l);
    InteiroInalterado(t);
    InteiroInalterado(w);
    InteiroInalterado(h);
    InteiroInalterado(l + w);
    InteiroInalterado(t + h);
  }

  class AreaSelecaoArrasto {
    var coordenadas: Pontos
    var isDrawing: bool
    /** The selection div's geometry, None until it is first drawn. */
    var caixa: Option<Caixa>
    var visivel: bool
    /** The 'coordenadas-area' field, None while empty. */
    var campoArea: Option<seq<int>>

    ghost predicate Valid()
      reads this
    {
      (isDrawing ==> caixa.Some?)
      && (caixa.Some? && campoArea.Some? ==> campoArea.value == CampoDe(caixa.value))
    }

    /** The box on screen is the one the current corners span. Pressing and
        dragging keep it so; `limparSelecao` does not. */
    ghost predicate Sincronizada()
      reads this
    {
      caixa == Some(CaixaDe(coordenadas))
    }

    /** `constructor` and `inicializar`: a hidden, never drawn box. */
    constructor ()
      ensures Valid()
      ensures coordenadas == Origem && !isDrawing && caixa.None? && !visivel && campoArea.None?
    {
      coordenadas := Origem;
      isDrawing := false;
      caixa := None;
      visivel := false;
      campoArea := None;
    }

    /** `atualizarSelecao()` */
    method AtualizarSelecao()
      modifies this
      ensures caixa == Some(CaixaDe(old(coordenadas))) && visivel
      ensures campoArea == Some(CampoDe(CaixaDe(old(coordenadas))))
      ensures coordenadas == old(coordenadas) && isDrawing == old(isDrawing)
    {
      var x := MinR(coordenadas.x1, coordenadas.x2);
      var y := MinR(coordenadas.y1, coordenadas.y2);
      var width := AbsR(coordenadas.x2 - coordenadas.x1);
      var height := AbsR(coordenadas.y2 - coordenadas.y1);
      caixa := Some(Caixa(x, y, width, height));
      visivel := true;
      campoArea := Some([Round(x), Round(y), Round(x + width), Round(y + height)]);
    }

    /** `iniciarSelecao` / `iniciarSelecaoTouch` at (x, y). */
    method IniciarSelecao(x: real, y: real)
      requires Valid()
      modifies this
      ensures Valid()
      ensures coordenadas == Pontos(x, y, x, y) && isDrawing && Sincronizada()
      ensures caixa == Some(Caixa(x, y, 0.0, 0.0)) && visivel
      ensures campoArea == Some(CampoDe(CaixaDe(coordenadas)))
    {
      coordenadas := Pontos(x, y, x, y);
      isDrawing := true;
      AtualizarSelecao();
    }

    /** `desenharSelecao` / `desenharSelecaoTouch` at (x, y): ignored
        unless a drag is under way. */
    method DesenharSelecao(x: real, y: real)
      requires Valid()
      modifies this
      ensures Valid()
      ensures !old(isDrawing) ==> coordenadas == old(coordenadas) && caixa == old(caixa)
                                  && visivel == old(visivel) && campoArea == old(campoArea) && !isDrawing
      ensures old(isDrawing) ==> coordenadas == old(coordenadas).(x2 := x, y2 := y) && isDrawing
                                 && Sincronizada() && visivel
                                 && campoArea == Some(CampoDe(CaixaDe(coordenadas)))
    {
      if !isDrawing {
        return;
      }
      coordenadas := coordenadas.(x2 := x, y2 := y);
      AtualizarSelecao();
    }

    /** `salvarArea()`: reads the drawn box back. It is only reached from
        `finalizarSelecao`, after a box has been drawn. */
    method SalvarArea() returns (area: seq<int>)
      requires caixa.Some?
      ensures area == AreaDe(caixa.value)
    {
      var b := caixa.value;
      var x := ParseIntPx(b.left);
      var y := ParseIntPx(b.top);
      var width := ParseIntPx(b.width);
      var height := ParseIntPx(b.height);
      area := [x, y, x + width, y + height];
    }

    /** `finalizarSelecao` / `finalizarSelecaoTouch`: ends a drag and
        returns the area sent to the server; nothing happens without a
        drag. The release position itself is never read. */
    method FinalizarSelecao() returns (enviada: Option<seq<int>>)
      requires Valid()
      modifies this
      ensures Valid()
      ensures enviada.None? <==> !old(isDrawing)
      ensures enviada.Some? ==> enviada.value == AreaDe(old(caixa).value)
      ensures enviada.Some? && old(Sincronizada()) ==> enviada.value == AreaDe(CaixaDe(coordenadas))
      ensures enviada.Some? && caixa.Some? && campoArea.Some? && Inteira(caixa.value) ==> enviada.value == campoArea.value
      ensures !isDrawing
      ensures coordenadas == old(coordenadas) && caixa == old(caixa) && visivel == old(visivel)
      ensures campoArea == old(campoArea)
    {
      if !isDrawing {
        return None;
      }
      isDrawing := false;
      var area := SalvarArea();
      enviada := Some(area);
      if caixa.Some? && campoArea.Some? && Inteira(caixa.value) {
        CampoIgualAreaSeInteira(caixa.value);
      }
    }

    /** `limparSelecao()`: hides the box and clears the corners and the
        field; the box's last geometry and the drag flag stay as they were. */
    method LimparSelecao()
      requires Valid()
      modifies this
      ensures Valid()
      ensures !visivel && coordenadas == Origem && campoArea.None?
      ensures caixa == old(caixa) && isDrawing == old(isDrawing)
    {
      visivel := false;
      coordenadas := Origem;
      campoArea := None;
    }
  }

  /** A whole drag on whole pixels, press at (10, 20) and last move to
      (70, 90): the field and the area sent are both [10, 20, 70, 90]. */
  method ArrastoInteiro() returns (enviada: Option<seq<int>>, campo: Option<seq<int>>)
    ensures enviada == Some([10, 20, 70, 90]) && campo == enviada
  {
    var s := new AreaSelecaoArrasto();
    s.IniciarSelecao(10.0, 20.0);
    s.DesenharSelecao(70.0, 90.0);
    CaixaInteira(10, 20, 60, 70);
    assert s.caixa == Some(Caixa(10.0, 20.0, 60.0, 70.0));
    enviada := s.FinalizarSelecao();
    campo := s.campoArea;
  }
}
