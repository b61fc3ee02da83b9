/** psd_manager.py: layer extraction that turns any error into an empty
    result, and `processar_psd_para_banco`, which replaces one side's rows
    of its own, narrower `campos_config` table (id, nome_campo, tipo_campo,
    editavel) and reports how many visible layers it saw.

    That table declares its id `AUTOINCREMENT`, so SQLite numbers new rows
    from a counter that never goes back (`sqlite_sequence`), even after a
    delete; the counter is a field of the table's class. */
module PsdManager {
  import opened Base
  import opened Camadas

  /** `extrair_camadas_psd` of psd_manager.py. `documento` is None when
      psd_tools raised anywhere while opening the file or walking its layers
      (`is_visible`, `bbox`, `text`); the `except` then discards any partial
      list and returns []. */
  method ExtrairCamadasPsd(documento: Option<seq<RawLayer>>) returns (camadas: seq<Camada>)
    ensures camadas == Extraidas(documento)
  {
    if documento.None? {
      return [];
    }
    camadas := ExtrairCamadas(documento.value);
  }

  function Extraidas(documento: Option<seq<RawLayer>>): seq<Camada>
  {
    if documento.None? then [] else Visiveis(documento.value)
  }

  /** One row of this table: id, nome_campo, tipo_campo, editavel. */
  datatype CampoPsd = CampoPsd(id: int, nomeCampo: string, tipoCampo: string, editavel: int)

  /** A row without its id. */
  datatype LinhaPsd = LinhaPsd(nomeCampo: string, tipoCampo: string, editavel: int)

  function Linhas(rows: seq<CampoPsd>): (r: seq<LinhaPsd>)
    ensures |r| == |rows|
  {
    if rows == [] then []
    else
      var last := rows[|rows| - 1];
      Linhas(rows[..|rows| - 1]) + [LinhaPsd(last.nomeCampo, last.tipoCampo, last.editavel)]
  }

  /** Rows whose `tipo_campo` is `t` (keep) or is not `t` (!keep). */
  function FiltrarPsd(rows: seq<CampoPsd>, t: string, keep: bool): seq<CampoPsd>
  {
    if rows == [] then []
    else
      var last := rows[|rows| - 1];
      FiltrarPsd(rows[..|rows| - 1], t, keep) + (if (last.tipoCampo == t) == keep then [last] else [])
  }

  /** The insert loop: one row per 'type' layer, ids `proximo`, `proximo + 1`, ... */
  function Novas(camadas: seq<Camada>, t: string, proximo: int): (r: seq<CampoPsd>)
    ensures |r| == CountKind(camadas, true)
    ensures forall i :: 0 <= i < |r| ==> r[i].id == proximo + i && r[i].tipoCampo == t && r[i].editavel == 1
  {
    if camadas == [] then []
    else
      var r := Novas(camadas[..|camadas| - 1], t, proximo);
      var c := camadas[|camadas| - 1];
      if c.tipo == TypeKind then r + [CampoPsd(proximo + |r|, c.nome, t, 1)] else r
  }

  /** The rows a pass should leave for its side, ignoring ids. */
  function EsperadasPsd(camadas: seq<Camada>, t: string): seq<LinhaPsd>
  {
    if camadas == [] then []
    else
      var c := camadas[|camadas| - 1];
      EsperadasPsd(camadas[..|camadas| - 1], t) + (if c.tipo == TypeKind then [LinhaPsd(c.nome, t, 1)] else [])
  }

  /** The table after one pass: delete side `t`, then append its new rows. */
  function ProcessarLinhas(rows: seq<CampoPsd>, camadas: seq<Camada>, t: string, proximo: int): (r: seq<CampoPsd>)
    ensures |r| == |FiltrarPsd(rows, t, false)| + CountKind(camadas, true)
    ensures forall i :: 0 <= i < |r| ==> (r[i].tipoCampo == t <==> i >= |FiltrarPsd(rows, t, false)|)
    ensures forall i :: |FiltrarPsd(rows, t, false)| <= i < |r| ==> r[i].id == proximo + i - |FiltrarPsd(rows, t, false)|
  {
    FiltrarPsdTipos(rows, t, false);
    FiltrarPsd(rows, t, false) + Novas(camadas, t, proximo)
  }

  // ---------------------------------------------------------------------

  lemma {:induction false} FiltrarPsdConcat(a: seq<CampoPsd>, b: seq<CampoPsd>, t: string, keep: bool)
    ensures FiltrarPsd(a + b, t, keep) == FiltrarPsd(a, t, keep) + FiltrarPsd(b, t, keep)
    decreases |b|
  {
    if b == [] {
      assert a + b == a;
    } else {
      assert (a + b)[..|a + b| - 1] == a + b[..|b| - 1];
      assert (a + b)[|a + b| - 1] == b[|b| - 1];
      FiltrarPsdConcat(a, b[..|b| - 1], t, keep);
    }
  }

  lemma {:induction false} LinhasConcat(a: seq<CampoPsd>, b: seq<CampoPsd>)
    ensures Linhas(a + b) == Linhas(a) + Linhas(b)
    decreases |b|
  {
    if b == [] {
      assert a + b == a;
    } else {
      assert (a + b)[..|a + b| - 1] == a + b[..|b| - 1];
      assert (a + b)[|a + b| - 1] == b[|b| - 1];
      LinhasConcat(a, b[..|b| - 1]);
    }
  }

  /** Filtering what a delete left: no `t` rows, other sides unchanged,
      deleting twice is deleting once. */
  lemma {:induction false} FiltrarPsdDeleted(rows: seq<CampoPsd>, t: string, t': string)
    ensures FiltrarPsd(FiltrarPsd(rows, t, false), t, true) == []
    ensures FiltrarPsd(FiltrarPsd(rows, t, false), t, false) == FiltrarPsd(rows, t, false)
    ensures t' != t ==> FiltrarPsd(FiltrarPsd(rows, t, false), t', true) == FiltrarPsd(rows, t', true)
  {
    if rows != [] {
      var front := rows[..|rows| - 1];
      var last := rows[|rows| - 1];
      FiltrarPsdDeleted(front, t, t');
      var tail := if last.tipoCampo != t then [last] else [];
      FiltrarPsdConcat(FiltrarPsd(front, t, false), tail, t, true);
      FiltrarPsdConcat(FiltrarPsd(front, t, false), tail, t, false);
      FiltrarPsdConcat(FiltrarPsd(front, t, false), tail, t', true);
      assert [last][..0] == [];
    }
  }

  /** The new rows all belong to side `t`, are exactly the expected rows,
      carry consecutive ids from `proximo`, and there is one per text layer. */
  lemma {:induction false} NovasShape(camadas: seq<Camada>, t: string, proximo: int, t': string)
    ensures FiltrarPsd(Novas(camadas, t, proximo), t, true) == Novas(camadas, t, proximo)
    ensures FiltrarPsd(Novas(camadas, t, proximo), t, false) == []
    ensures t' != t ==> FiltrarPsd(Novas(camadas, t, proximo), t', true) == []
    ensures Linhas(Novas(camadas, t, proximo)) == EsperadasPsd(camadas, t)
    ensures forall i :: 0 <= i < |Novas(camadas, t, proximo)| ==> Novas(camadas, t, proximo)[i].id == proximo + i
    ensures |Novas(camadas, t, proximo)| == CountKind(camadas, true)
  {
    FiltrarPsdUniforme(Novas(camadas, t, proximo), t, t');
    NovasLinhas(camadas, t, proximo);
  }

  lemma {:induction false} NovasLinhas(camadas: seq<Camada>, t: string, proximo: int)
    ensures Linhas(Novas(camadas, t, proximo)) == EsperadasPsd(camadas, t)
  {
    if camadas != [] {
      var front := camadas[..|camadas| - 1];
      var r := Novas(front, t, proximo);
      var c := camadas[|camadas| - 1];
      NovasLinhas(front, t, proximo);
      if c.tipo == TypeKind {
        LinhasConcat(r, [CampoPsd(proximo + |r|, c.nome, t, 1)]);
      }
    }
  }

  /** Filtering rows that all belong to side `t`. */
  lemma {:induction false} FiltrarPsdUniforme(rows: seq<CampoPsd>, t: string, t': string)
    requires forall i :: 0 <= i < |rows| ==> rows[i].tipoCampo == t
    ensures FiltrarPsd(rows, t, true) == rows
    ensures FiltrarPsd(rows, t, false) == []
    ensures t' != t ==> FiltrarPsd(rows, t', true) == []
  {
    if rows != [] {
      FiltrarPsdUniforme(rows[..|rows| - 1], t, t');
      assert rows == rows[..|rows| - 1] + [rows[|rows| - 1]];
    }
  }

  /** Rows of other sides are untouched by a pass. */
  lemma ProcessarOutrosTipos(rows: seq<CampoPsd>, camadas: seq<Camada>, t: string, proximo: int, t': string)
    requires t' != t
    ensures FiltrarPsd(ProcessarLinhas(rows, camadas, t, proximo), t', true) == FiltrarPsd(rows, t', true)
  {
    FiltrarPsdConcat(FiltrarPsd(rows, t, false), Novas(camadas, t, proximo), t', true);
    FiltrarPsdDeleted(rows, t, t');
    NovasShape(camadas, t, proximo, t');
  }

  /** After a pass, side `t` has exactly one row (nome_campo = layer name,
      tipo_campo = t, editavel = 1) per text layer, in layer order. */
  lemma ProcessarLado(rows: seq<CampoPsd>, camadas: seq<Camada>, t: string, proximo: int)
    ensures Linhas(FiltrarPsd(ProcessarLinhas(rows, camadas, t, proximo), t, true)) == EsperadasPsd(camadas, t)
  {
    var base := FiltrarPsd(rows, t, false);
    var novas := Novas(camadas, t, proximo);
    FiltrarPsdConcat(base, novas, t, true);
    FiltrarPsdDeleted(rows, t, t);
    NovasShape(camadas, t, proximo, t);
    assert FiltrarPsd(base + novas, t, true) == [] + novas;
    assert [] + novas == novas;
  }

  /** Repeating a pass on the same layers leaves the same rows, ignoring
      ids (the AUTOINCREMENT counter has moved on, so the ids differ). */
  lemma ProcessarIdempotente(rows: seq<CampoPsd>, camadas: seq<Camada>, t: string, p1: int, p2: int)
    ensures Linhas(ProcessarLinhas(ProcessarLinhas(rows, camadas, t, p1), camadas, t, p2))
         == Linhas(ProcessarLinhas(rows, camadas, t, p1))
  {
    var once := ProcessarLinhas(rows, camadas, t, p1);
    FiltrarPsdConcat(FiltrarPsd(rows, t, false), Novas(camadas, t, p1), t, false);
    FiltrarPsdDeleted(rows, t, t);
    NovasShape(camadas, t, p1, t);
    NovasShape(camadas, t, p2, t);
    assert FiltrarPsd(once, t, false) == FiltrarPsd(rows, t, false);
    LinhasConcat(FiltrarPsd(rows, t, false), Novas(camadas, t, p1));
    LinhasConcat(FiltrarPsd(rows, t, false), Novas(camadas, t, p2));
  }

  // ---------------------------------------------------------------------

  /** psd_manager.py's database: its `campos_config` rows in id order and
      the AUTOINCREMENT counter. */
  class BancoPsd {
    var campos: seq<CampoPsd>
    var sequencia: int

    ghost predicate Valid()
      reads this
    {
      forall i :: 0 <= i < |campos| ==> campos[i].id <= sequencia
    }

    /** `criar_banco_se_nao_existir` on a fresh database. */
    constructor ()
      ensures Valid() && campos == [] && sequencia == 0
    {
      campos, sequencia := [], 0;
    }

    /** `processar_psd_para_banco(psd_path, tipo)`. */
    method ProcessarPsdParaBanco(documento: Option<seq<RawLayer>>, tipo: string) returns (n: nat)
      requires Valid()
      modifies this
      ensures Valid()
      ensures n == |Extraidas(documento)|
      ensures campos == ProcessarLinhas(old(campos), Extraidas(documento), tipo, old(sequencia) + 1)
      ensures sequencia == old(sequencia) + CountKind(Extraidas(documento), true)
    {
      var camadas := ExtrairCamadasPsd(documento);
      ghost var base := FiltrarPsd(campos, tipo, false);
      ghost var proximo := sequencia + 1;
      SobreviventesAbaixo(campos, tipo, sequencia);
      campos := FiltrarPsd(campos, tipo, false);
      InserirCamadas(camadas, tipo);
      IdsAteSequencia(base, camadas, tipo, proximo);
      n := |camadas|;
    }

    /** The insert loop of `processar_psd_para_banco`: one row per text
        layer, each taking the next value of the counter. */
    method InserirCamadas(camadas: seq<Camada>, tipo: string)
      modifies this
      ensures campos == old(campos) + Novas(camadas, tipo, old(sequencia) + 1)
      ensures sequencia == old(sequencia) + |Novas(camadas, tipo, old(sequencia) + 1)|
    {
      ghost var base := campos;
      ghost var proximo := sequencia + 1;
      var i := 0;
      while i < |camadas|
        invariant 0 <= i <= |camadas|
        invariant campos == base + Novas(camadas[..i], tipo, proximo)
        invariant sequencia == proximo - 1 + |Novas(camadas[..i], tipo, proximo)|
      {
        NovasPasso(camadas, i, tipo, proximo);
        var camada := camadas[i];
        if camada.tipo == TypeKind {
          sequencia := sequencia + 1;
          campos := campos + [CampoPsd(sequencia, camada.nome, tipo, 1)];
        }
        i := i + 1;
      }
      assert camadas[..|camadas|] == camadas;
    }
  }

  /** The rows that survive the delete all have ids up to the counter. */
  lemma SobreviventesAbaixo(campos: seq<CampoPsd>, t: string, sequencia: int)
    requires forall i :: 0 <= i < |campos| ==> campos[i].id <= sequencia
    ensures forall k :: 0 <= k < |FiltrarPsd(campos, t, false)| ==> FiltrarPsd(campos, t, false)[k].id < sequencia + 1
  {
    var base := FiltrarPsd(campos, t, false);
    FiltrarPsdMembers(campos, t);
    forall k | 0 <= k < |base| ensures base[k].id < sequencia + 1 {
      assert base[k] in campos;
    }
  }

  /** One step of the insert loop. */
  lemma NovasPasso(camadas: seq<Camada>, i: nat, t: string, proximo: int)
    requires i < |camadas|
    ensures var r := Novas(camadas[..i], t, proximo);
            Novas(camadas[..i + 1], t, proximo)
            == r + (if camadas[i].tipo == TypeKind then [CampoPsd(proximo + |r|, camadas[i].nome, t, 1)] else [])
  {
    assert camadas[..i + 1][..i] == camadas[..i];
  }

  /** After a pass no id exceeds the counter: the survivors' ids are below
      `proximo`, and the new ids run from `proximo` up to the counter. */
  lemma IdsAteSequencia(base: seq<CampoPsd>, camadas: seq<Camada>, t: string, proximo: int)
    requires forall k :: 0 <= k < |base| ==> base[k].id < proximo
    ensures var campos := base + Novas(camadas, t, proximo);
            forall k :: 0 <= k < |campos| ==> campos[k].id <= proximo - 1 + |Novas(camadas, t, proximo)|
  {
    var novas := Novas(camadas, t, proximo);
    var campos := base + novas;
    forall k | 0 <= k < |campos| ensures campos[k].id <= proximo - 1 + |novas| {
      if k >= |base| { assert campos[k] == novas[k - |base|]; }
    }
  }

  /** Every row a filter keeps has the side asked for. */
  lemma {:induction false} FiltrarPsdTipos(rows: seq<CampoPsd>, t: string, keep: bool)
    ensures forall i :: 0 <= i < |FiltrarPsd(rows, t, keep)| ==> (FiltrarPsd(rows, t, keep)[i].tipoCampo == t) == keep
  {
    if rows != [] {
      FiltrarPsdTipos(rows[..|rows| - 1], t, keep);
    }
  }

  lemma {:induction false} FiltrarPsdMembers(rows: seq<CampoPsd>, t: string)
    ensures forall r :: r in FiltrarPsd(rows, t, false) ==> r in rows
  {
    if rows != [] {
      FiltrarPsdMembers(rows[..|rows| - 1], t);
      assert rows == rows[..|rows| - 1] + [rows[|rows| - 1]];
    }
  }

  /** The result counts every visible layer, text or not: it is the number
      of inserted rows plus the number of visible non-text layers. */
  lemma ResultadoContaTodas(documento: Option<seq<RawLayer>>, t: string, proximo: int)
    ensures |Extraidas(documento)| == |Novas(Extraidas(documento), t, proximo)| + CountKind(Extraidas(documento), false)
  {
    NovasShape(Extraidas(documento), t, proximo, t);
    if documento.Some? {
      CountsPreserved(documento.value, true);
      CountsPreserved(documento.value, false);
    }
  }

  /** A file that cannot be opened still clears its side: no rows of side
      `t` remain, none are added, the other sides are as they were, and
      the result is 0. */
  lemma FalhaApagaLado(rows: seq<CampoPsd>, t: string, proximo: int)
    ensures |Extraidas(None)| == 0
    ensures ProcessarLinhas(rows, Extraidas(None), t, proximo) == FiltrarPsd(rows, t, false)
    ensures FiltrarPsd(ProcessarLinhas(rows, Extraidas(None), t, proximo), t, true) == []
  {
    FiltrarPsdDeleted(rows, t, t);
    assert FiltrarPsd(rows, t, false) + [] == FiltrarPsd(rows, t, false);
  }

  /** One visible image layer and one visible text layer: two layers are
      reported, one row is inserted. */
  lemma ResultadoNaoEhInseridas()
    ensures var doc := Some([RawLayer("fundo", "pixel", true, BBox(0.0, 0.0, 10.0, 10.0), ""),
                             RawLayer("Nome", "type", true, BBox(1.0, 2.0, 3.0, 4.0), "Nome")]);
            |Extraidas(doc)| == 2 && |Novas(Extraidas(doc), "frente", 1)| == 1
  {
    var l0 := RawLayer("fundo", "pixel", true, BBox(0.0, 0.0, 10.0, 10.0), "");
    var l1 := RawLayer("Nome", "type", true, BBox(1.0, 2.0, 3.0, 4.0), "Nome");
    VisiveisConcat([l0], [l1]);
    VisiveisSingle(l0);
    VisiveisSingle(l1);
    assert [l0] + [l1] == [l0, l1];
    var cs := Visiveis([l0, l1]);
    assert cs == [ToCamada(l0), ToCamada(l1)];
    assert cs[..1] == [ToCamada(l0)];
    assert cs[..1][..0] == [];
  }

  // ---------------------------------------------------------------------

  /** The result of `testar_psd`: success flag and message. */
  datatype Teste = Teste(ok: bool, mensagem: string)

  /** `testar_psd(psd_path)`. `aberto` is psd_tools' outcome: the document's
      width and height, or the text of the exception it raised. */
  function TestarPsd(aberto: Result<(nat, nat), string>): (r: Teste)
    ensures r.ok <==> aberto.Success?
    ensures aberto.Success? ==>
              r.mensagem == "PSD aberto com sucesso. Dimens\U{f5}es: "
                            + NatToString(aberto.value.0) + "x" + NatToString(aberto.value.1)
    ensures aberto.Failure? ==> r.mensagem == "Erro ao abrir PSD: " + aberto.error
  {
    match aberto
    case Success(d) => Teste(true, "PSD aberto com sucesso. Dimens\U{f5}es: " + NatToString(d.0) + "x" + NatToString(d.1))
    case Failure(e) => Teste(false, "Erro ao abrir PSD: " + e)
  }

  /** The dimensions in a success message can be read back: the text
      between the prefix and the 'x' is the width, the rest the height. */
  lemma TestarPsdDimensoes(w: nat, h: nat)
    ensures var m := TestarPsd(Success((w, h))).mensagem;
            var p := |"PSD aberto com sucesso. Dimens\U{f5}es: "|;
            var k := p + |NatToString(w)|;
            k < |m| && m[k] == 'x' && m[p..k] == NatToString(w) && m[k + 1..] == NatToString(h)
            && ParseNat(m[p..k]) == w && ParseNat(m[k + 1..]) == h
  {
    Separar("PSD aberto com sucesso. Dimens\U{f5}es: ", NatToString(w), NatToString(h));
    ParseNatToString(w);
    ParseNatToString(h);
  }

  lemma Separar(pre: string, a: string, b: string)
    ensures var m := pre + a + "x" + b;
            |pre| + |a| < |m| && m[|pre| + |a|] == 'x'
            && m[|pre|..|pre| + |a|] == a && m[|pre| + |a| + 1..] == b
  {
    var m := pre + a + "x" + b;
    assert m == (pre + a) + ("x" + b);
    assert m[|pre|..|pre| + |a|] == (pre + a)[|pre|..];
  }
}
