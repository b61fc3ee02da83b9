/** The card compositor (`gerar_carteirinha`) as a render plan, plus the
    pixel-level steps it runs in place: pasting the resized photo into the
    base image and compositing the text layer over the result.

    Font loading, text rasterisation, image decoding and resizing are
    foreign (Pillow); the plan says what is drawn where, and the raster
    methods take the rasterised text as a coverage mask and the photo as
    already resized. */
module Compositor {
  import opened Base
  import opened CamposConfig

  /** One `draw.text((x, y), valor, fill=(0, 0, 0, 255))` call: black text
      with its top-left corner at (x, y). */
  datatype Desenho = Desenho(x: int, y: int, texto: string)

  /** One `base_img.paste(foto, (x1, y1), foto)` of a photo resized to
      largura x altura. */
  datatype Colagem = Colagem(x1: int, y1: int, largura: int, altura: int)

  /** The render plan of one side: the photo paste (if any) goes into the
      base image first, then every text draw is composited over it. */
  datatype Plano = Plano(desenhos: seq<Desenho>, foto: Option<Colagem>)

  /** `json.loads(posicao)[0]` or `[1]` on a box with fewer than two entries
      raises; nothing in `gerar_carteirinha` catches it. */
  datatype ErroComposicao = PosicaoIncompleta

  /** `dados.get(nome, '')` */
  function Valor(dados: map<string, string>, nome: string): string
  {
    if nome in dados then dados[nome] else ""
  }

  /** The row survives both `continue`s: editable (truthy) and with a
      non-empty value under its `nome_campo`. */
  predicate Desenha(c: Campo, dados: map<string, string>)
  {
    c.editavel != 0 && Valor(dados, c.nomeCampo) != ""
  }

  /** The text pass over `campos_config`, in table order. */
  function Desenhos(campos: seq<Campo>, dados: map<string, string>): (r: Result<seq<Desenho>, ErroComposicao>)
    ensures r.Success? ==> |r.value| <= |campos|
    ensures r.Success? ==> forall i :: 0 <= i < |r.value| ==> r.value[i].texto != ""
    ensures r.Failure? ==> exists i :: 0 <= i < |campos| && Desenha(campos[i], dados) && |campos[i].posicao| < 2
  {
    if campos == [] then Success([])
    else
      var c := campos[0];
      if !Desenha(c, dados) then Desenhos(campos[1..], dados)
      else if |c.posicao| < 2 then Failure(PosicaoIncompleta)
      else match Desenhos(campos[1..], dados) {
        case Failure(e) => Failure(e)
        case Success(rest) => Success([Desenho(c.posicao[0], c.posicao[1], Valor(dados, c.nomeCampo))] + rest)
      }
  }

  /** Python truthiness of the optional path and of the decoded `area_foto` list. */
  predicate Preenchido(s: Option<string>) { s.Some? && s.value != "" }
  predicate AreaPreenchida(a: Option<seq<int>>) { a.Some? && a.value != [] }

  /** The photo step. It runs only when `foto_path` and `area_foto` are set and
      the template path ends with 'frente.psd'; inside its `try`, the photo
      must decode (`fotoAbre`), the area must unpack into four values and the
      resize target must be at least 1x1 (Pillow refuses smaller sizes); any
      failure there is caught and the photo is skipped. */
  function ColagemFoto(psdPath: string, fotoPath: Option<string>, areaFoto: Option<seq<int>>, fotoAbre: bool): (r: Option<Colagem>)
    ensures r.Some? ==> Preenchido(fotoPath) && AreaPreenchida(areaFoto) && EndsWith(psdPath, "frente.psd") && fotoAbre
    ensures r.Some? ==> (|areaFoto.value| == 4
                         && r.value.x1 == areaFoto.value[0] && r.value.y1 == areaFoto.value[1]
                         && r.value.x1 + r.value.largura == areaFoto.value[2]
                         && r.value.y1 + r.value.altura == areaFoto.value[3]
                         && r.value.largura >= 1 && r.value.altura >= 1)
    ensures (Preenchido(fotoPath) && EndsWith(psdPath, "frente.psd") && fotoAbre && areaFoto.Some?
             && |areaFoto.value| == 4
             && areaFoto.value[2] > areaFoto.value[0] && areaFoto.value[3] > areaFoto.value[1]) ==> r.Some?
  {
    if Preenchido(fotoPath) && AreaPreenchida(areaFoto) && EndsWith(psdPath, "frente.psd") then
      var area := areaFoto.value;
      if fotoAbre && |area| == 4 && area[2] - area[0] >= 1 && area[3] - area[1] >= 1 then
        Some(Colagem(area[0], area[1], area[2] - area[0], area[3] - area[1]))
      else None
    else None
  }

  /** `gerar_carteirinha(psd_path, dados, campos_config, out, foto_path, area_foto)` as a plan. */
  function GerarPlano(psdPath: string, dados: map<string, string>, campos: seq<Campo>,
                      fotoPath: Option<string>, areaFoto: Option<seq<int>>, fotoAbre: bool): (r: Result<Plano, ErroComposicao>)
    ensures r.Failure? ==> exists i :: 0 <= i < |campos| && Desenha(campos[i], dados) && |campos[i].posicao| < 2
    ensures r.Success? ==> |r.value.desenhos| <= |campos|
    ensures r.Success? && r.value.foto.Some? ==> EndsWith(psdPath, "frente.psd") && Preenchido(fotoPath) && fotoAbre
  {
    match Desenhos(campos, dados) {
      case Failure(e) => Failure(e)
      case Success(ds) => Success(Plano(ds, ColagemFoto(psdPath, fotoPath, areaFoto, fotoAbre)))
    }
  }

  // ---------------------------------------------------------------------
  // Properties of the text pass

  /** Table order is draw order: the text pass distributes over splitting
      the table, and the first failing row decides the error. */
  lemma {:induction false} DesenhosConcat(a: seq<Campo>, b: seq<Campo>, dados: map<string, string>)
    ensures Desenhos(a + b, dados) ==
            match Desenhos(a, dados) {
              case Failure(e) => Failure(e)
              case Success(da) =>
                match Desenhos(b, dados) {
                  case Failure(e) => Failure(e)
                  case Success(db) => Success(da + db)
                }
            }
  {
    if a == [] {
      assert a + b == b;
      match Desenhos(b, dados) {
        case Failure(e) =>
        case Success(db) => assert [] + db == db;
      }
    } else {
      var c := a[0];
      assert (a + b)[0] == c;
      assert (a + b)[1..] == a[1..] + b;
      DesenhosConcat(a[1..], b, dados);
      if Desenha(c, dados) && |c.posicao| >= 2 {
        var d := Desenho(c.posicao[0], c.posicao[1], Valor(dados, c.nomeCampo));
        match Desenhos(a[1..], dados) {
          case Failure(e) =>
          case Success(da) =>
            match Desenhos(b, dados) {
              case Failure(e) =>
              case Success(db) => assert [d] + (da + db) == ([d] + da) + db;
            }
        }
      }
    }
  }

  /** A single row: skipped unless editable with a non-empty value; else one
      black draw of its value at (posicao[0], posicao[1]), or the error if
      its box is too short. */
  lemma DesenhosLinha(c: Campo, dados: map<string, string>)
    ensures !Desenha(c, dados) ==> Desenhos([c], dados) == Success([])
    ensures Desenha(c, dados) && |c.posicao| >= 2 ==>
              Desenhos([c], dados) == Success([Desenho(c.posicao[0], c.posicao[1], dados[c.nomeCampo])])
    ensures Desenha(c, dados) && |c.posicao| < 2 ==> Desenhos([c], dados) == Failure(PosicaoIncompleta)
  {
    assert [c][1..] == [];
    assert Desenhos([c][1..], dados) == Success([]);
    if Desenha(c, dados) && |c.posicao| >= 2 {
      var d := Desenho(c.posicao[0], c.posicao[1], dados[c.nomeCampo]);
      assert [d] + [] == [d];
    }
  }

  /** Every draw comes from an editable row whose `nome_campo` has a
      non-empty value, and is that value at the row's top-left corner. */
  lemma {:induction false} DesenhosOrigem(campos: seq<Campo>, dados: map<string, string>)
    requires Desenhos(campos, dados).Success?
    ensures forall d :: d in Desenhos(campos, dados).value ==>
              exists c :: c in campos && c.editavel != 0 && c.nomeCampo in dados
                && d.texto == dados[c.nomeCampo] && d.texto != ""
                && |c.posicao| >= 2 && d.x == c.posicao[0] && d.y == c.posicao[1]
  {
    if campos != [] {
      DesenhosOrigem(campos[1..], dados);
      forall c | c in campos[1..] ensures c in campos { }
    }
  }

  /** Number of rows that produce a draw. */
  function ContaDesenha(campos: seq<Campo>, dados: map<string, string>): nat
  {
    if campos == [] then 0 else (if Desenha(campos[0], dados) then 1 else 0) + ContaDesenha(campos[1..], dados)
  }

  /** One draw per drawing row: nothing is drawn for a skipped row, and no
      placeholder is drawn for a missing value. */
  lemma {:induction false} DesenhosConta(campos: seq<Campo>, dados: map<string, string>)
    requires Desenhos(campos, dados).Success?
    ensures |Desenhos(campos, dados).value| == ContaDesenha(campos, dados)
  {
    if campos != [] {
      DesenhosConta(campos[1..], dados);
    }
  }

  /** A table whose rows agree on everything the text pass reads. */
  ghost predicate MesmaLeitura(a: seq<Campo>, b: seq<Campo>)
  {
    |a| == |b| &&
    forall i :: 0 <= i < |a| ==>
      a[i].nomeCampo == b[i].nomeCampo && a[i].editavel == b[i].editavel && a[i].posicao == b[i].posicao
  }

  /** The lookup key is `nome_campo`: the id, the side and `nome_original` of
      the rows do not affect what is drawn. (So rows of both sides are drawn
      on whichever side is being composed.) */
  lemma {:induction false} DesenhosChave(a: seq<Campo>, b: seq<Campo>, dados: map<string, string>)
    requires MesmaLeitura(a, b)
    ensures Desenhos(a, dados) == Desenhos(b, dados)
  {
    if a != [] {
      assert MesmaLeitura(a[1..], b[1..]) by {
        forall i | 0 <= i < |a| - 1 ensures a[1..][i] == a[i + 1] && b[1..][i] == b[i + 1] { }
      }
      DesenhosChave(a[1..], b[1..], dados);
      assert a[0].nomeCampo == b[0].nomeCampo && a[0].editavel == b[0].editavel && a[0].posicao == b[0].posicao;
    }
  }

  /** Skip-on-empty: a row that is not editable, or has no value, can be
      removed from the table without changing what is drawn. */
  lemma SemValorSemEfeito(a: seq<Campo>, c: Campo, b: seq<Campo>, dados: map<string, string>)
    requires !Desenha(c, dados)
    ensures Desenhos(a + [c] + b, dados) == Desenhos(a + b, dados)
  {
    DesenhosConcat(a + [c], b, dados);
    DesenhosConcat(a, [c], dados);
    DesenhosConcat(a, b, dados);
    DesenhosLinha(c, dados);
    match Desenhos(a, dados) {
      case Failure(e) =>
      case Success(da) => assert da + [] == da;
    }
  }

  /** A table whose boxes all have four entries (as every pass of
      `salvar_camadas_config` leaves it) never makes the text pass fail. */
  lemma {:induction false} DesenhosSemErro(campos: seq<Campo>, dados: map<string, string>)
    requires PosicoesCompletas(campos)
    ensures Desenhos(campos, dados).Success?
  {
    if campos != [] {
      assert PosicoesCompletas(campos[1..]) by {
        forall i | 0 <= i < |campos| - 1 ensures campos[1..][i] == campos[i + 1] { }
      }
      DesenhosSemErro(campos[1..], dados);
      assert |campos[0].posicao| == 4;
    }
  }

  /** The photo inputs never make composition fail, and the photo decision
      depends neither on the field table nor on the values: two calls that
      differ only there fail together or paste the same photo. */
  lemma GerarPlanoFoto(psdPath: string, dados: map<string, string>, dados': map<string, string>,
                       campos: seq<Campo>, campos': seq<Campo>,
                       fotoPath: Option<string>, fotoPath': Option<string>,
                       areaFoto: Option<seq<int>>, areaFoto': Option<seq<int>>, fotoAbre: bool, fotoAbre': bool)
    ensures GerarPlano(psdPath, dados, campos, fotoPath, areaFoto, fotoAbre).Success?
            == GerarPlano(psdPath, dados, campos, fotoPath', areaFoto', fotoAbre').Success?
    ensures GerarPlano(psdPath, dados, campos, fotoPath, areaFoto, fotoAbre).Success?
            && GerarPlano(psdPath, dados', campos', fotoPath, areaFoto, fotoAbre).Success? ==>
              GerarPlano(psdPath, dados, campos, fotoPath, areaFoto, fotoAbre).value.foto
              == GerarPlano(psdPath, dados', campos', fotoPath, areaFoto, fotoAbre).value.foto
  {
  }

  /** A side composed without a photo path, or whose template path does not
      end with 'frente.psd', gets no photo. */
  lemma SemFotoNoVerso(psdPath: string, dados: map<string, string>, campos: seq<Campo>,
                       fotoPath: Option<string>, areaFoto: Option<seq<int>>, fotoAbre: bool)
    requires fotoPath.None? || !EndsWith(psdPath, "frente.psd")
    requires GerarPlano(psdPath, dados, campos, fotoPath, areaFoto, fotoAbre).Success?
    ensures GerarPlano(psdPath, dados, campos, fotoPath, areaFoto, fotoAbre).value.foto.None?
  {
  }

  // ---------------------------------------------------------------------
  // The raster steps, for fully opaque pixels

  datatype Cor = Cor(r: int, g: int, b: int)

  const Preto: Cor := Cor(0, 0, 0)

  /** (x, y) lies in the rectangle of width w and height h whose top-left is (x1, y1). */
  predicate NoRetangulo(x: int, y: int, x1: int, y1: int, w: int, h: int)
  {
    x1 <= x < x1 + w && y1 <= y < y1 + h
  }

  /** The pixel `paste` leaves at (x, y) (column x, row y) for an opaque photo. */
  function Colado(base: Cor, foto: array2<Cor>, x: int, y: int, x1: int, y1: int): Cor
    reads foto
  {
    if NoRetangulo(x, y, x1, y1, foto.Length1, foto.Length0) then foto[y - y1, x - x1] else base
  }

  /** `base_img.paste(foto, (x1, y1), foto)` with an opaque photo: the part
      of the photo that falls inside the base image replaces the pixels
      under it, and nothing outside the photo's rectangle changes. Arrays
      are indexed [row, column]. */
  method Colar(base: array2<Cor>, foto: array2<Cor>, x1: int, y1: int)
    requires base != foto
    modifies base
    ensures forall y, x :: 0 <= y < base.Length0 && 0 <= x < base.Length1 ==>
              base[y, x] == Colado(old(base[y, x]), foto, x, y, x1, y1)
  {
    var i := 0;
    while i < base.Length0
      invariant 0 <= i <= base.Length0
      invariant forall y, x :: 0 <= y < i && 0 <= x < base.Length1 ==>
                  base[y, x] == Colado(old(base[y, x]), foto, x, y, x1, y1)
      invariant forall y, x :: i <= y < base.Length0 && 0 <= x < base.Length1 ==> base[y, x] == old(base[y, x])
    {
      var j := 0;
      while j < base.Length1
        invariant 0 <= j <= base.Length1
        invariant forall y, x :: 0 <= y < i && 0 <= x < base.Length1 ==>
                    base[y, x] == Colado(old(base[y, x]), foto, x, y, x1, y1)
        invariant forall x :: 0 <= x < j ==> base[i, x] == Colado(old(base[i, x]), foto, x, i, x1, y1)
        invariant forall x :: j <= x < base.Length1 ==> base[i, x] == old(base[i, x])
        invariant forall y, x :: i < y < base.Length0 && 0 <= x < base.Length1 ==> base[y, x] == old(base[y, x])
      {
        if NoRetangulo(j, i, x1, y1, foto.Length1, foto.Length0) {
          base[i, j] := foto[i - y1, j - x1];
        }
        j := j + 1;
      }
      i := i + 1;
    }
  }

  /** `Image.alpha_composite(base_img, draw_img)` where the text layer is
      opaque black where the rasterised text covers it and transparent
      elsewhere. */
  method ComporTexto(base: array2<Cor>, texto: array2<bool>) returns (res: array2<Cor>)
    requires texto.Length0 == base.Length0 && texto.Length1 == base.Length1
    ensures fresh(res)
    ensures res.Length0 == base.Length0 && res.Length1 == base.Length1
    ensures forall y, x :: 0 <= y < res.Length0 && 0 <= x < res.Length1 ==>
              res[y, x] == (if texto[y, x] then Preto else base[y, x])
  {
    res := new Cor[base.Length0, base.Length1];
    var i := 0;
    while i < base.Length0
      invariant 0 <= i <= base.Length0
      invariant forall y, x :: 0 <= y < i && 0 <= x < res.Length1 ==>
                  res[y, x] == (if texto[y, x] then Preto else base[y, x])
    {
      var j := 0;
      while j < base.Length1
        invariant 0 <= j <= base.Length1
        invariant forall y, x :: 0 <= y < i && 0 <= x < res.Length1 ==>
                    res[y, x] == (if texto[y, x] then Preto else base[y, x])
        invariant forall x :: 0 <= x < j ==> res[i, x] == (if texto[i, x] then Preto else base[i, x])
      {
        res[i, j] := if texto[i, j] then Preto else base[i, j];
        j := j + 1;
      }
      i := i + 1;
    }
  }

  /** The end of `gerar_carteirinha`: paste the photo (if the plan has one)
      into the base image, then composite the text layer on top. `foto` is
      the photo already resized to the plan's largura x altura. Text wins
      over the photo, the photo over the template art. */
  method Flatten(base: array2<Cor>, colagem: Option<Colagem>, foto: Option<array2<Cor>>, texto: array2<bool>)
    returns (res: array2<Cor>)
    requires texto.Length0 == base.Length0 && texto.Length1 == base.Length1
    requires foto.Some? <==> colagem.Some?
    requires colagem.Some? ==> foto.value.Length1 == colagem.value.largura && foto.value.Length0 == colagem.value.altura
    requires foto.Some? ==> foto.value != base
    modifies base
    ensures fresh(res)
    ensures res.Length0 == base.Length0 && res.Length1 == base.Length1
    ensures forall y, x :: 0 <= y < res.Length0 && 0 <= x < res.Length1 ==>
              res[y, x] == (if texto[y, x] then Preto
                            else if colagem.Some? && NoRetangulo(x, y, colagem.value.x1, colagem.value.y1,
                                                                 colagem.value.largura, colagem.value.altura)
                            then foto.value[y - colagem.value.y1, x - colagem.value.x1]
                            else old(base[y, x]))
  {
    if colagem.Some? {
      Colar(base, foto.value, colagem.value.x1, colagem.value.y1);
    }
    res := ComporTexto(base, texto);
  }
}
