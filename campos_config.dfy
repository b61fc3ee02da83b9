/** The application's database (`database.db`) as in-memory state: the
    single configuration row of `sistema_config` and the rows of
    `campos_config`, with `salvar_camadas_config`, which replaces one
    side's field rows by one row per text layer.

    Row identifiers follow SQLite's rule for an `INTEGER PRIMARY KEY`
    without AUTOINCREMENT: a new row gets one more than the largest id in
    the table, or 1 in an empty table. The table's sequence order is its
    id order, which is the order `SELECT *` returns. */
module CamposConfig {
  import opened Base
  import opened Camadas

  /** One `campos_config` row: id, tipo, nome_original, nome_campo, posicao, editavel. */
  datatype Campo = Campo(id: int, tipo: string, nomeOriginal: string, nomeCampo: string,
                         posicao: seq<int>, editavel: int)

  /** A row without its store-assigned id. */
  datatype CampoDados = CampoDados(tipo: string, nomeOriginal: string, nomeCampo: string,
                                   posicao: seq<int>, editavel: int)

  function Dados(c: Campo): CampoDados
  {
    CampoDados(c.tipo, c.nomeOriginal, c.nomeCampo, c.posicao, c.editavel)
  }

  function Projetar(rows: seq<Campo>): (r: seq<CampoDados>)
    ensures |r| == |rows|
  {
    if rows == [] then [] else Projetar(rows[..|rows| - 1]) + [Dados(rows[|rows| - 1])]
  }

  /** The rows whose `tipo` is `t` (keep == true) or is not `t` (keep == false). */
  function Filtrar(rows: seq<Campo>, t: string, keep: bool): (r: seq<Campo>)
    ensures |r| <= |rows|
    ensures forall i :: 0 <= i < |r| ==> (r[i].tipo == t) == keep
  {
    if rows == [] then []
    else
      var last := rows[|rows| - 1];
      Filtrar(rows[..|rows| - 1], t, keep) + (if (last.tipo == t) == keep then [last] else [])
  }

  /** `DELETE FROM campos_config WHERE tipo = ?` */
  function SemTipo(rows: seq<Campo>, t: string): seq<Campo> { Filtrar(rows, t, false) }

  /** `SELECT * FROM campos_config WHERE tipo = ?` */
  function DoTipo(rows: seq<Campo>, t: string): seq<Campo> { Filtrar(rows, t, true) }

  function MaxId(rows: seq<Campo>): int
    requires rows != []
  {
    if |rows| == 1 then rows[0].id else Max(MaxId(rows[..|rows| - 1]), rows[|rows| - 1].id)
  }

  /** The id SQLite gives to the next inserted row. */
  function NextId(rows: seq<Campo>): (n: int)
    ensures forall i :: 0 <= i < |rows| ==> rows[i].id < n
  {
    if rows == [] then 1 else MaxIdBound(rows); MaxId(rows) + 1
  }

  lemma {:induction false} MaxIdBound(rows: seq<Campo>)
    requires rows != []
    ensures forall i :: 0 <= i < |rows| ==> rows[i].id <= MaxId(rows)
  {
    if |rows| > 1 {
      MaxIdBound(rows[..|rows| - 1]);
      assert forall i :: 0 <= i < |rows| - 1 ==> rows[i] == rows[..|rows| - 1][i];
    }
  }

  /** The row `salvar_camadas_config` inserts for a text layer. */
  function NovoCampo(id: int, t: string, c: Camada): Campo
  {
    Campo(id, t, c.nome, c.nome, c.posicao, 1)
  }

  /** The insert loop: one row per 'type' layer, each id assigned at its own insert. */
  function Inserir(rows: seq<Campo>, camadas: seq<Camada>, t: string): (r: seq<Campo>)
    ensures |r| == |rows| + CountKind(camadas, true)
  {
    if camadas == [] then rows
    else
      var r := Inserir(rows, camadas[..|camadas| - 1], t);
      var c := camadas[|camadas| - 1];
      if c.tipo == TypeKind then r + [NovoCampo(NextId(r), t, c)] else r
  }

  /** The table after `salvar_camadas_config(camadas, t)`: delete, then insert. */
  function Reprocessar(rows: seq<Campo>, camadas: seq<Camada>, t: string): (r: seq<Campo>)
    ensures |r| == |SemTipo(rows, t)| + CountKind(camadas, true)
    ensures forall i :: 0 <= i < |r| ==> (r[i].tipo == t <==> i >= |SemTipo(rows, t)|)
  {
    InserirAppends(SemTipo(rows, t), camadas, t);
    Inserir(SemTipo(rows, t), camadas, t)
  }

  /** The rows a reprocessing pass should leave for its side, ignoring ids:
      one per text layer, in layer order, named after the layer, at its
      box, editable. */
  function Esperados(camadas: seq<Camada>, t: string): seq<CampoDados>
  {
    if camadas == [] then []
    else
      var c := camadas[|camadas| - 1];
      Esperados(camadas[..|camadas| - 1], t)
        + (if c.tipo == TypeKind then [CampoDados(t, c.nome, c.nome, c.posicao, 1)] else [])
  }

  /** Primary-key invariant: ids strictly increase along the table. */
  ghost predicate IdsCrescentes(rows: seq<Campo>)
  {
    forall i, j :: 0 <= i < j < |rows| ==> rows[i].id < rows[j].id
  }

  /** What the invariant buys the readers of the table: an id names at most
      one row, and a side's rows come back in id order, so the sequence
      order `SELECT * ... WHERE tipo = ?` returns is the insertion order. */
  lemma IdsCrescentesLeitura(rows: seq<Campo>, t: string)
    requires IdsCrescentes(rows)
    ensures forall i, j :: 0 <= i < |rows| && 0 <= j < |rows| && rows[i].id == rows[j].id ==> i == j
    ensures IdsCrescentes(DoTipo(rows, t))
  {
    FiltrarPreservesIds(rows, t, true);
  }

  /** Every row's box has the four entries the compositor reads. */
  ghost predicate PosicoesCompletas(rows: seq<Campo>)
  {
    forall i :: 0 <= i < |rows| ==> |rows[i].posicao| == 4
  }

  // ---------------------------------------------------------------------
  // Structural facts about the table functions

  lemma {:induction false} FiltrarConcat(a: seq<Campo>, b: seq<Campo>, t: string, keep: bool)
    ensures Filtrar(a + b, t, keep) == Filtrar(a, t, keep) + Filtrar(b, t, keep)
    decreases |b|
  {
    if b == [] {
      assert a + b == a;
    } else {
      assert (a + b)[..|a + b| - 1] == a + b[..|b| - 1];
      assert (a + b)[|a + b| - 1] == b[|b| - 1];
      FiltrarConcat(a, b[..|b| - 1], t, keep);
    }
  }

  lemma {:induction false} FiltrarMembers(rows: seq<Campo>, t: string, keep: bool)
    ensures forall r :: r in Filtrar(rows, t, keep) <==> r in rows && (r.tipo == t) == keep
  {
    if rows != [] {
      FiltrarMembers(rows[..|rows| - 1], t, keep);
      assert rows == rows[..|rows| - 1] + [rows[|rows| - 1]];
    }
  }

  /** Filtering the deleted table again: no `t` rows remain, the other
      sides are as before, and deleting twice is deleting once. */
  lemma {:induction false} SemTipoFiltrar(rows: seq<Campo>, t: string, t': string)
    ensures DoTipo(SemTipo(rows, t), t) == []
    ensures SemTipo(SemTipo(rows, t), t) == SemTipo(rows, t)
    ensures t' != t ==> DoTipo(SemTipo(rows, t), t') == DoTipo(rows, t')
  {
    if rows != [] {
      var front := rows[..|rows| - 1];
      var last := rows[|rows| - 1];
      SemTipoFiltrar(front, t, t');
      var tail := if last.tipo != t then [last] else [];
      FiltrarConcat(SemTipo(front, t), tail, t, true);
      FiltrarConcat(SemTipo(front, t), tail, t, false);
      FiltrarConcat(SemTipo(front, t), tail, t', true);
      assert [last][..0] == [];
    }
  }

  lemma {:induction false} ProjetarConcat(a: seq<Campo>, b: seq<Campo>)
    ensures Projetar(a + b) == Projetar(a) + Projetar(b)
    decreases |b|
  {
    if b == [] {
      assert a + b == a;
    } else {
      assert (a + b)[..|a + b| - 1] == a + b[..|b| - 1];
      assert (a + b)[|a + b| - 1] == b[|b| - 1];
      ProjetarConcat(a, b[..|b| - 1]);
    }
  }

  /** Inserting only appends rows of side `t` after the existing rows. */
  lemma {:induction false} InserirAppends(rows: seq<Campo>, camadas: seq<Camada>, t: string)
    ensures |Inserir(rows, camadas, t)| >= |rows|
    ensures Inserir(rows, camadas, t)[..|rows|] == rows
    ensures forall i :: |rows| <= i < |Inserir(rows, camadas, t)| ==> Inserir(rows, camadas, t)[i].tipo == t
  {
    if camadas != [] {
      InserirAppends(rows, camadas[..|camadas| - 1], t);
    }
  }

  /** The insert loop leaves the rows of every other side alone. */
  lemma {:induction false} InserirOutros(rows: seq<Campo>, camadas: seq<Camada>, t: string, t': string)
    requires t' != t
    ensures DoTipo(Inserir(rows, camadas, t), t') == DoTipo(rows, t')
  {
    if camadas != [] {
      var r := Inserir(rows, camadas[..|camadas| - 1], t);
      var c := camadas[|camadas| - 1];
      InserirOutros(rows, camadas[..|camadas| - 1], t, t');
      if c.tipo == TypeKind {
        var n := NovoCampo(NextId(r), t, c);
        FiltrarConcat(r, [n], t', true);
        assert [n][..0] == [];
      }
    }
  }

  /** Deleting side `t` after inserting rows of side `t` removes exactly them. */
  lemma {:induction false} InserirSemTipo(rows: seq<Campo>, camadas: seq<Camada>, t: string)
    ensures SemTipo(Inserir(rows, camadas, t), t) == SemTipo(rows, t)
  {
    if camadas != [] {
      var r := Inserir(rows, camadas[..|camadas| - 1], t);
      var c := camadas[|camadas| - 1];
      InserirSemTipo(rows, camadas[..|camadas| - 1], t);
      if c.tipo == TypeKind {
        var n := NovoCampo(NextId(r), t, c);
        FiltrarConcat(r, [n], t, false);
        assert [n][..0] == [];
      }
    }
  }

  /** The insert loop adds, to side `t`, exactly the expected rows. */
  lemma {:induction false} InserirDoTipo(rows: seq<Campo>, camadas: seq<Camada>, t: string)
    ensures Projetar(DoTipo(Inserir(rows, camadas, t), t)) == Projetar(DoTipo(rows, t)) + Esperados(camadas, t)
  {
    if camadas != [] {
      var front := camadas[..|camadas| - 1];
      var r := Inserir(rows, front, t);
      var c := camadas[|camadas| - 1];
      InserirDoTipo(rows, front, t);
      if c.tipo == TypeKind {
        InserirDoTipoPasso(r, NovoCampo(NextId(r), t, c), t);
      }
    }
  }

  /** Appending one row of side `t` appends its data to the side. */
  lemma InserirDoTipoPasso(r: seq<Campo>, n: Campo, t: string)
    requires n.tipo == t
    ensures Projetar(DoTipo(r + [n], t)) == Projetar(DoTipo(r, t)) + [Dados(n)]
  {
    FiltrarConcat(r, [n], t, true);
    assert [n][..0] == [];
    ProjetarConcat(DoTipo(r, t), [n]);
  }

  lemma {:induction false} InserirPreservesIds(rows: seq<Campo>, camadas: seq<Camada>, t: string)
    requires IdsCrescentes(rows)
    ensures IdsCrescentes(Inserir(rows, camadas, t))
  {
    if camadas != [] {
      InserirPreservesIds(rows, camadas[..|camadas| - 1], t);
    }
  }

  lemma {:induction false} InserirPreservesPosicoes(rows: seq<Campo>, camadas: seq<Camada>, t: string)
    requires PosicoesCompletas(rows)
    requires forall i :: 0 <= i < |camadas| ==> |camadas[i].posicao| == 4
    ensures PosicoesCompletas(Inserir(rows, camadas, t))
  {
    if camadas != [] {
      InserirPreservesPosicoes(rows, camadas[..|camadas| - 1], t);
    }
  }

  lemma {:induction false} FiltrarPreservesIds(rows: seq<Campo>, t: string, keep: bool)
    requires IdsCrescentes(rows)
    ensures IdsCrescentes(Filtrar(rows, t, keep))
  {
    if rows != [] {
      var front := rows[..|rows| - 1];
      FiltrarPreservesIds(front, t, keep);
      FiltrarMembers(front, t, keep);
      var f := Filtrar(front, t, keep);
      forall i | 0 <= i < |f| ensures f[i].id < rows[|rows| - 1].id {
        assert f[i] in front;
      }
    }
  }

  lemma {:induction false} FiltrarPreservesPosicoes(rows: seq<Campo>, t: string, keep: bool)
    requires PosicoesCompletas(rows)
    ensures PosicoesCompletas(Filtrar(rows, t, keep))
  {
    FiltrarMembers(rows, t, keep);
    var f := Filtrar(rows, t, keep);
    forall i | 0 <= i < |f| ensures |f[i].posicao| == 4 {
      assert f[i] in rows;
    }
  }

  // ---------------------------------------------------------------------
  // Properties of one reprocessing pass

  /** Rows of every other side come through a pass unchanged, ids included. */
  lemma ReprocessarOutrosLados(rows: seq<Campo>, camadas: seq<Camada>, t: string, t': string)
    requires t' != t
    ensures DoTipo(Reprocessar(rows, camadas, t), t') == DoTipo(rows, t')
  {
    InserirOutros(SemTipo(rows, t), camadas, t, t');
    SemTipoFiltrar(rows, t, t');
  }

  /** After a pass, the rows of side `t` are exactly one per text layer, in
      layer order, with nome_original = nome_campo = layer name, the layer's
      box and editavel = 1. */
  lemma ReprocessarLado(rows: seq<Campo>, camadas: seq<Camada>, t: string)
    ensures Projetar(DoTipo(Reprocessar(rows, camadas, t), t)) == Esperados(camadas, t)
  {
    InserirDoTipo(SemTipo(rows, t), camadas, t);
    SemTipoFiltrar(rows, t, t);
  }

  /** The surviving rows keep their place at the front of the table, and
      the new rows follow them. */
  lemma ReprocessarLayout(rows: seq<Campo>, camadas: seq<Camada>, t: string)
    ensures |SemTipo(rows, t)| <= |Reprocessar(rows, camadas, t)|
    ensures Reprocessar(rows, camadas, t)[..|SemTipo(rows, t)|] == SemTipo(rows, t)
    ensures forall i :: |SemTipo(rows, t)| <= i < |Reprocessar(rows, camadas, t)| ==>
              Reprocessar(rows, camadas, t)[i].tipo == t
  {
    InserirAppends(SemTipo(rows, t), camadas, t);
  }

  /** Running the pass twice on the same layers leaves the same table as
      running it once; with max-plus-one ids even the ids agree. */
  lemma ReprocessarIdempotente(rows: seq<Campo>, camadas: seq<Camada>, t: string)
    ensures Reprocessar(Reprocessar(rows, camadas, t), camadas, t) == Reprocessar(rows, camadas, t)
  {
    InserirSemTipo(SemTipo(rows, t), camadas, t);
    SemTipoFiltrar(rows, t, t);
  }

  /** A pass keeps the primary-key invariant, and keeps every box complete
      when the layers' boxes are. */
  lemma ReprocessarPreserves(rows: seq<Campo>, camadas: seq<Camada>, t: string)
    requires IdsCrescentes(rows) && PosicoesCompletas(rows)
    requires forall i :: 0 <= i < |camadas| ==> |camadas[i].posicao| == 4
    ensures IdsCrescentes(Reprocessar(rows, camadas, t))
    ensures PosicoesCompletas(Reprocessar(rows, camadas, t))
  {
    FiltrarPreservesIds(rows, t, false);
    FiltrarPreservesPosicoes(rows, t, false);
    InserirPreservesIds(SemTipo(rows, t), camadas, t);
    InserirPreservesPosicoes(SemTipo(rows, t), camadas, t);
  }

  // ---------------------------------------------------------------------
  // The database

  class Banco {
    /** sistema_config row 1: psd_frente, psd_verso, area_foto (NULL is None). */
    var psdFrente: Option<string>
    var psdVerso: Option<string>
    var areaFoto: Option<seq<int>>
    /** campos_config, in id order. */
    var campos: seq<Campo>

    ghost predicate Valid()
      reads this
    {
      IdsCrescentes(campos)
    }

    /** `init_db` on a fresh database: the config row exists with every column NULL. */
    constructor ()
      ensures Valid()
      ensures psdFrente == None && psdVerso == None && areaFoto == None && campos == []
    {
      psdFrente, psdVerso, areaFoto, campos := None, None, None, [];
    }

    /** `salvar_camadas_config(camadas, tipo)`. */
    method SalvarCamadasConfig(camadas: seq<Camada>, tipo: string)
      requires Valid()
      modifies this
      ensures Valid()
      ensures campos == Reprocessar(old(campos), camadas, tipo)
      ensures psdFrente == old(psdFrente) && psdVerso == old(psdVerso) && areaFoto == old(areaFoto)
    {
      ghost var base := SemTipo(campos, tipo);
      FiltrarPreservesIds(campos, tipo, false);
      campos := SemTipo(campos, tipo);
      var i := 0;
      while i < |camadas|
        invariant 0 <= i <= |camadas|
        invariant campos == Inserir(base, camadas[..i], tipo)
        invariant psdFrente == old(psdFrente) && psdVerso == old(psdVerso) && areaFoto == old(areaFoto)
      {
        assert camadas[..i + 1][..i] == camadas[..i];
        var camada := camadas[i];
        if camada.tipo == TypeKind {
          campos := campos + [NovoCampo(NextId(campos), tipo, camada)];
        }
        i := i + 1;
      }
      assert camadas[..|camadas|] == camadas;
      InserirPreservesIds(base, camadas, tipo);
    }
  }
}
