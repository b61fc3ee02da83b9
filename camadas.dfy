/** Layer extraction (`extrair_camadas_psd`): the visible layers of a design
    document, in document (descendant) order, reduced to a name, a kind,
    an integer bounding box and, for type layers only, the authored text.

    The document itself is foreign (psd_tools); it enters the model as the
    sequence of its descendant layers, already flattened in the order
    `psd.descendants()` walks them. */
module Camadas {
  import opened Base

  /** A bounding box as the layer reports it: left, top, right, bottom. */
  datatype BBox = BBox(left: real, top: real, right: real, bottom: real)

  /** One descendant layer of the document, as psd_tools exposes it.
      `visible` is the layer's `is_visible()`, which is false when the layer
      or any group enclosing it is hidden; the groups themselves are not
      modelled, only this computed answer. */
  datatype RawLayer = RawLayer(name: string, kind: string, visible: bool, bbox: BBox, text: string)

  /** One extracted layer record: keys 'nome', 'tipo', 'posicao', 'texto'. */
  datatype Camada = Camada(nome: string, tipo: string, posicao: seq<int>, texto: Option<string>)

  /** The layer kind psd_tools gives text layers. */
  const TypeKind: string := "type"

  /** Python's `int(x)` on a number: truncation toward zero. */
  function TruncInt(x: real): (t: int)
    ensures x >= 0.0 ==> t as real <= x < t as real + 1.0
    ensures x < 0.0 ==> t as real - 1.0 < x <= t as real
  {
    if x >= 0.0 then x.Floor else -((-x).Floor)
  }

  /** The four bbox values converted with `int`, in the order left, top, right, bottom. */
  function Posicao(b: BBox): (p: seq<int>)
    ensures |p| == 4
  {
    [TruncInt(b.left), TruncInt(b.top), TruncInt(b.right), TruncInt(b.bottom)]
  }

  /** The record built for one visible layer. */
  function ToCamada(l: RawLayer): Camada
  {
    Camada(l.name, l.kind, Posicao(l.bbox), if l.kind == TypeKind then Some(l.text) else None)
  }

  /** The extraction result: visible layers only, in document order. */
  function Visiveis(layers: seq<RawLayer>): (r: seq<Camada>)
    ensures |r| <= |layers|
    ensures forall i :: 0 <= i < |r| ==> |r[i].posicao| == 4 && (r[i].texto.Some? <==> r[i].tipo == TypeKind)
  {
    if layers == [] then []
    else
      var last := layers[|layers| - 1];
      Visiveis(layers[..|layers| - 1]) + (if last.visible then [ToCamada(last)] else [])
  }

  /** The loop of `extrair_camadas_psd`: walk the descendants, append one
      record per visible layer. */
  method ExtrairCamadas(layers: seq<RawLayer>) returns (camadas: seq<Camada>)
    ensures camadas == Visiveis(layers)
  {
    camadas := [];
    var i := 0;
    while i < |layers|
      invariant 0 <= i <= |layers|
      invariant camadas == Visiveis(layers[..i])
    {
      var layer := layers[i];
      assert layers[..i + 1][..i] == layers[..i];
      if layer.visible {
        camadas := camadas + [ToCamada(layer)];
      }
      i := i + 1;
    }
    assert layers[..|layers|] == layers;
  }

  /** Document order: the records of an earlier part of the document come
      before those of a later part. */
  lemma {:induction false} VisiveisConcat(a: seq<RawLayer>, b: seq<RawLayer>)
    ensures Visiveis(a + b) == Visiveis(a) + Visiveis(b)
    decreases |b|
  {
    if b == [] {
      assert a + b == a;
    } else {
      var bf := b[..|b| - 1];
      assert (a + b)[..|a + b| - 1] == a + bf;
      assert (a + b)[|a + b| - 1] == b[|b| - 1];
      VisiveisConcat(a, bf);
    }
  }

  /** Filtering: one layer yields its record exactly when it is visible. */
  lemma VisiveisSingle(l: RawLayer)
    ensures Visiveis([l]) == if l.visible then [ToCamada(l)] else []
  {
    assert [l][..0] == [];
  }

  /** Every record comes from a visible layer of the document, and every
      visible layer yields a record. */
  lemma {:induction false} VisiveisMembers(layers: seq<RawLayer>)
    ensures forall c :: c in Visiveis(layers) ==> exists l :: l in layers && l.visible && c == ToCamada(l)
    ensures forall l :: l in layers && l.visible ==> ToCamada(l) in Visiveis(layers)
  {
    if layers != [] {
      var front := layers[..|layers| - 1];
      VisiveisMembers(front);
      assert layers == front + [layers[|layers| - 1]];
      forall l | l in layers && l.visible
        ensures ToCamada(l) in Visiveis(layers)
      {
        if l in front {} else { assert l == layers[|layers| - 1]; }
      }
    }
  }

  /** Number of visible layers whose kind is (or is not) the text kind. */
  function CountVisible(layers: seq<RawLayer>, text: bool): nat
  {
    if layers == [] then 0
    else
      var last := layers[|layers| - 1];
      CountVisible(layers[..|layers| - 1], text)
        + (if last.visible && (last.kind == TypeKind) == text then 1 else 0)
  }

  /** Number of records whose kind is (or is not) the text kind. */
  function CountKind(camadas: seq<Camada>, text: bool): nat
  {
    if camadas == [] then 0
    else
      var last := camadas[|camadas| - 1];
      CountKind(camadas[..|camadas| - 1], text) + (if (last.tipo == TypeKind) == text then 1 else 0)
  }

  lemma {:induction false} CountKindAppend(a: seq<Camada>, b: seq<Camada>, text: bool)
    ensures CountKind(a + b, text) == CountKind(a, text) + CountKind(b, text)
    decreases |b|
  {
    if b == [] {
      assert a + b == a;
    } else {
      assert (a + b)[..|a + b| - 1] == a + b[..|b| - 1];
      assert (a + b)[|a + b| - 1] == b[|b| - 1];
      CountKindAppend(a, b[..|b| - 1], text);
      assert b == b[..|b| - 1] + [b[|b| - 1]];
      assert [b[|b| - 1]][..0] == [];
    }
  }

  /** A document with N visible text layers and M visible other layers
      yields exactly N text records and M other records, whatever its hidden
      layers are. */
  lemma {:induction false} CountsPreserved(layers: seq<RawLayer>, text: bool)
    ensures CountKind(Visiveis(layers), text) == CountVisible(layers, text)
    ensures |Visiveis(layers)| == CountVisible(layers, true) + CountVisible(layers, false)
  {
    if layers != [] {
      var front := layers[..|layers| - 1];
      var last := layers[|layers| - 1];
      CountsPreserved(front, text);
      var tail := if last.visible then [ToCamada(last)] else [];
      CountKindAppend(Visiveis(front), tail, text);
      assert [ToCamada(last)][..0] == [];
    }
  }

  /** Each record carries text exactly when it is a text layer, and always a
      four-entry integer box. */
  lemma {:induction false} VisiveisShape(layers: seq<RawLayer>)
    ensures forall c :: c in Visiveis(layers) ==> (c.texto.Some? <==> c.tipo == TypeKind)
    ensures forall c :: c in Visiveis(layers) ==> |c.posicao| == 4
  {
    VisiveisMembers(layers);
  }
}
