/** The application routes' decision logic (the `app.py` embedded in
    criar_projeto.py): the upload whitelist `allowed_file`, the config-slot
    update and layer extraction of `upload_psd`, and the readiness check
    and field pass-through of `processar_geracao`. Requests, redirects,
    file saving and SQL are left to the caller; the database is a
    `CamposConfig.Banco`. */
module Aplicacao {
  import opened Base
  import opened Camadas
  import opened CamposConfig
  import opened Compositor

  const AllowedExtensions: set<string> := {"psd", "png", "jpg", "jpeg"}

  /** `'.' in filename and filename.rsplit('.', 1)[1].lower() in ALLOWED_EXTENSIONS` */
  predicate AllowedFile(filename: string)
    ensures AllowedFile(filename) ==> LastIndexOf(filename, '.').Some? && LastIndexOf(filename, '.').value + 3 < |filename|
  {
    match LastIndexOf(filename, '.')
    case None => false
    case Some(i) => Lower(filename[i + 1..]) in AllowedExtensions
  }

  /** A name passes exactly when it has a '.' and the text after its last
      '.', lower-cased, is one of psd, png, jpg, jpeg. */
  lemma AllowedFileIff(f: string)
    ensures AllowedFile(f) <==>
            exists i :: 0 <= i < |f| && f[i] == '.' && '.' !in f[i + 1..] && Lower(f[i + 1..]) in AllowedExtensions
  {
    if exists i :: 0 <= i < |f| && f[i] == '.' && '.' !in f[i + 1..] && Lower(f[i + 1..]) in AllowedExtensions {
      var i :| 0 <= i < |f| && f[i] == '.' && '.' !in f[i + 1..] && Lower(f[i + 1..]) in AllowedExtensions;
      AllowedFileAt(f, i);
    }
  }

  lemma AllowedFileAt(f: string, i: nat)
    requires i < |f| && f[i] == '.' && '.' !in f[i + 1..] && Lower(f[i + 1..]) in AllowedExtensions
    ensures AllowedFile(f)
  {
    LastIndexOfUnique(f, '.', i);
  }

  /** Case does not matter: "A.PSD" passes. */
  lemma AllowedFileIgnoresCase()
    ensures AllowedFile("A.PSD")
  {
    LastIndexOfUnique("A.PSD", '.', 1);
    assert "A.PSD"[2..] == "PSD";
    assert Lower("PSD") == "psd";
  }

  /** Only the last extension counts: "x.tar.png" passes, "photo.png.exe" does not. */
  lemma AllowedFileLastExtension()
    ensures AllowedFile("x.tar.png")
    ensures !AllowedFile("photo.png.exe")
  {
    AllowedFileTarPng();
    AllowedFileExe();
  }

  lemma AllowedFileExe()
    ensures !AllowedFile("photo.png.exe")
  {
    var f := "photo.png.exe";
    assert f[10..] == "exe";
    LastIndexOfUnique(f, '.', 9);
    var e := Lower(f[10..]);
    assert e[0] == 'e';
    assert e !in AllowedExtensions;
  }

  lemma AllowedFileTarPng()
    ensures AllowedFile("x.tar.png")
  {
    LastIndexOfUnique("x.tar.png", '.', 5);
    assert "x.tar.png"[6..] == "png";
    assert Lower("png") == "png";
  }

  /** A name without a '.', or with nothing after its last '.', is refused. */
  lemma AllowedFileNeedsExtension()
    ensures !AllowedFile("psd")
    ensures !AllowedFile("a.")
  {
    assert "psd"[2] != '.' && "psd"[1] != '.' && "psd"[0] != '.';
    LastIndexOfUnique("a.", '.', 1);
    assert "a."[2..] == "";
  }

  /** The uploaded file part of a request (`request.files[...]`). */
  datatype Arquivo = Arquivo(filename: string)

  const UploadPsdDir: string := "static/psd_base"
  const UploadFotosDir: string := "static/fotos"

  /** `f"{tipo}"` where `tipo = request.form.get('tipo')` may be None. */
  function TipoTexto(tipo: Option<string>): string
  {
    match tipo
    case None => "None"
    case Some(t) => t
  }

  /** The name under which `upload_psd` saves the design file. */
  function NomePsd(tipo: Option<string>): (nome: string)
    ensures EndsWith(nome, ".psd")
    ensures tipo.None? ==> nome == "None.psd"
    ensures tipo.Some? ==> nome[..|nome| - 4] == tipo.value
  {
    EndsWithAppend(TipoTexto(tipo), ".psd");
    TipoTexto(tipo) + ".psd"
  }

  /** The upload is accepted: a file part, a non-empty name, a whitelisted extension. */
  predicate Aceito(psd: Option<Arquivo>)
  {
    psd.Some? && psd.value.filename != "" && AllowedFile(psd.value.filename)
  }

  /** `upload_psd`. `documento` is the outcome of opening the saved file
      with psd_tools: its descendant layers, or None when opening raised
      (which the route's `except` swallows). Returns the saved name. */
  method UploadPsd(db: Banco, tipo: Option<string>, psd: Option<Arquivo>, documento: Option<seq<RawLayer>>)
    returns (salvo: Option<string>)
    requires db.Valid()
    modifies db
    ensures db.Valid()
    ensures salvo == if Aceito(psd) then Some(NomePsd(tipo)) else None
    ensures db.psdFrente == if salvo.Some? && tipo == Some("frente") then salvo else old(db.psdFrente)
    ensures db.psdVerso == if salvo.Some? && tipo != Some("frente") then salvo else old(db.psdVerso)
    ensures db.areaFoto == old(db.areaFoto)
    ensures db.campos == if salvo.Some? && tipo == Some("frente") && documento.Some?
                         then Reprocessar(old(db.campos), Visiveis(documento.value), "frente")
                         else old(db.campos)
    ensures PosicoesCompletas(old(db.campos)) ==> PosicoesCompletas(db.campos)
  {
    salvo := None;
    if psd.None? {
      return;
    }
    var file := psd.value;
    if file.filename == "" {
      return;
    }
    if AllowedFile(file.filename) {
      var filename := NomePsd(tipo);
      salvo := Some(filename);
      if tipo == Some("frente") {
        db.psdFrente := Some(filename);
      } else {
        db.psdVerso := Some(filename);
      }
      if tipo == Some("frente") && documento.Some? {
        var camadas := ExtrairCamadas(documento.value);
        VisiveisShape(documento.value);
        if PosicoesCompletas(db.campos) {
          forall i | 0 <= i < |camadas| ensures |camadas[i].posicao| == 4 {
            assert camadas[i] in camadas;
          }
          ReprocessarPreserves(db.campos, camadas, "frente");
        }
        db.SalvarCamadasConfig(camadas, "frente");
      }
    }
  }

  /** The front upload always lands at a path the compositor recognises as
      the front side, so a configured front can receive the photo. */
  lemma FrenteRecebeFoto()
    ensures EndsWith(UploadPsdDir + "/" + NomePsd(Some("frente")), "frente.psd")
  {
    assert UploadPsdDir + "/" + NomePsd(Some("frente")) == "static/psd_base/" + "frente.psd";
    EndsWithAppend("static/psd_base/", "frente.psd");
  }

  // ---------------------------------------------------------------------
  // processar_geracao

  /** The keys of a sequence of submitted (key, value) pairs. */
  function Chaves(form: seq<(string, string)>): (r: set<string>)
    ensures forall k :: k in r <==> exists i :: 0 <= i < |form| && form[i].0 == k
  {
    if form == [] then {}
    else
      var front := form[..|form| - 1];
      var r := Chaves(front);
      assert forall i :: 0 <= i < |front| ==> front[i] == form[i];
      r + {form[|form| - 1].0}
  }

  /** werkzeug's `request.form.items()` on the submitted pairs `form`: each
      key once, in order of first appearance, with its FIRST value. The
      generation page renders one input per field row of both sides, so a
      field name used on both sides is submitted twice. */
  function Itens(form: seq<(string, string)>): seq<(string, string)>
  {
    if form == [] then []
    else
      var front := form[..|form| - 1];
      var last := form[|form| - 1];
      Itens(front) + (if last.0 in Chaves(front) then [] else [last])
  }

  lemma {:induction false} ChavesConcat(a: seq<(string, string)>, b: seq<(string, string)>)
    ensures Chaves(a + b) == Chaves(a) + Chaves(b)
    decreases |b|
  {
    if b == [] {
      assert a + b == a;
    } else {
      assert (a + b)[..|a + b| - 1] == a + b[..|b| - 1];
      assert (a + b)[|a + b| - 1] == b[|b| - 1];
      ChavesConcat(a, b[..|b| - 1]);
    }
  }

  /** `items()` yields every submitted key. */
  lemma {:induction false} ItensChaves(form: seq<(string, string)>)
    ensures Chaves(Itens(form)) == Chaves(form)
  {
    if form != [] {
      var front := form[..|form| - 1];
      var last := form[|form| - 1];
      ItensChaves(front);
      var tail := if last.0 in Chaves(front) then [] else [last];
      ChavesConcat(Itens(front), tail);
      assert [last][..0] == [];
    }
  }

  /** `items()` yields each key once. */
  lemma {:induction false} ItensDistintos(form: seq<(string, string)>)
    ensures forall a, b :: 0 <= a < b < |Itens(form)| ==> Itens(form)[a].0 != Itens(form)[b].0
  {
    if form != [] {
      var front := form[..|form| - 1];
      var last := form[|form| - 1];
      ItensDistintos(front);
      ItensChaves(front);
      var r := Itens(form);
      forall a, b | 0 <= a < b < |r| ensures r[a].0 != r[b].0 {
        if b >= |Itens(front)| {
          assert r[a] == Itens(front)[a];
          assert r[a].0 in Chaves(Itens(front));
        }
      }
    }
  }

  /** Each item `items()` yields is the first pair submitted under its key. */
  lemma {:induction false} ItensPrimeiros(form: seq<(string, string)>)
    ensures forall p :: p in Itens(form) ==>
              exists i :: 0 <= i < |form| && form[i] == p && forall j :: 0 <= j < i ==> form[j].0 != p.0
  {
    if form != [] {
      var front := form[..|form| - 1];
      var last := form[|form| - 1];
      ItensPrimeiros(front);
      forall p | p in Itens(form)
        ensures exists i :: 0 <= i < |form| && form[i] == p && forall j :: 0 <= j < i ==> form[j].0 != p.0
      {
        if p in Itens(front) {
          var i :| 0 <= i < |front| && front[i] == p && forall j :: 0 <= j < i ==> front[j].0 != p.0;
          assert forall j :: 0 <= j < i ==> form[j] == front[j];
          assert form[i] == p;
        } else {
          assert p == last && last.0 !in Chaves(front);
          assert forall j :: 0 <= j < |front| ==> form[j] == front[j];
          assert form[|form| - 1] == p;
        }
      }
    }
  }

  /** `dados`: every item of `items()` except 'foto'. */
  function DadosDe(itens: seq<(string, string)>): (r: map<string, string>)
    ensures "foto" !in r
    ensures |r| <= |itens|
  {
    if itens == [] then map[]
    else
      var item := itens[|itens| - 1];
      var m := DadosDe(itens[..|itens| - 1]);
      if item.0 != "foto" then m[item.0 := item.1] else m
  }

  /** The loop that builds `dados` from `request.form.items()`. */
  method FormParaDados(itens: seq<(string, string)>) returns (dados: map<string, string>)
    ensures dados == DadosDe(itens)
  {
    dados := map[];
    var i := 0;
    while i < |itens|
      invariant 0 <= i <= |itens|
      invariant dados == DadosDe(itens[..i])
    {
      assert itens[..i + 1][..i] == itens[..i];
      var (key, value) := itens[i];
      if key != "foto" {
        dados := dados[key := value];
      }
      i := i + 1;
    }
    assert itens[..|itens|] == itens;
  }

  /** The keys of the map are exactly the item keys other than 'foto', and
      each value is one that came with its key. */
  lemma {:induction false} DadosDeItens(itens: seq<(string, string)>)
    ensures forall k :: k in DadosDe(itens) <==> k != "foto" && exists i :: 0 <= i < |itens| && itens[i].0 == k
    ensures forall k :: k in DadosDe(itens) ==> exists i :: 0 <= i < |itens| && itens[i] == (k, DadosDe(itens)[k])
  {
    if itens != [] {
      var front := itens[..|itens| - 1];
      DadosDeItens(front);
      forall k | k != "foto" && (exists i :: 0 <= i < |itens| && itens[i].0 == k)
        ensures k in DadosDe(itens)
      {
        var i :| 0 <= i < |itens| && itens[i].0 == k;
        if i < |itens| - 1 { assert front[i].0 == k; }
      }
      forall k | k in DadosDe(itens)
        ensures exists i :: 0 <= i < |itens| && itens[i] == (k, DadosDe(itens)[k])
      {
        if k == itens[|itens| - 1].0 {
          assert itens[|itens| - 1] == (k, DadosDe(itens)[k]);
        } else {
          var i :| 0 <= i < |front| && front[i] == (k, DadosDe(front)[k]);
          assert itens[i] == front[i];
        }
      }
    }
  }

  /** The fields handed to the compositor, from the submitted pairs: the
      keys are exactly the submitted keys other than 'foto', and a key
      submitted more than once keeps its FIRST value. */
  lemma DadosDeChaves(form: seq<(string, string)>)
    ensures forall k :: k in DadosDe(Itens(form)) <==> k != "foto" && exists i :: 0 <= i < |form| && form[i].0 == k
    ensures forall k :: k in DadosDe(Itens(form)) ==>
              exists i :: 0 <= i < |form| && form[i] == (k, DadosDe(Itens(form))[k])
                          && forall j :: 0 <= j < i ==> form[j].0 != k
  {
    var itens := Itens(form);
    var dados := DadosDe(itens);
    ItensChaves(form);
    ItensPrimeiros(form);
    DadosDeItens(itens);
    forall k ensures k in dados <==> k != "foto" && k in Chaves(form) {
      assert k in Chaves(itens) <==> exists i :: 0 <= i < |itens| && itens[i].0 == k;
    }
    forall k | k in dados
      ensures exists i :: 0 <= i < |form| && form[i] == (k, dados[k]) && forall j :: 0 <= j < i ==> form[j].0 != k
    {
      var n :| 0 <= n < |itens| && itens[n] == (k, dados[k]);
      assert itens[n] in itens;
    }
  }

  /** The same field name on the front and on the back: the front's value
      is printed on both cards. */
  lemma PrimeiroValorVence()
    ensures DadosDe(Itens([("Nome", "Ana"), ("Nome", "Bia")])) == map["Nome" := "Ana"]
  {
    var form := [("Nome", "Ana"), ("Nome", "Bia")];
    assert form[..1] == [("Nome", "Ana")];
    assert [("Nome", "Ana")][..0] == [];
    assert Itens([("Nome", "Ana")]) == [("Nome", "Ana")];
    assert "Nome" in Chaves(form[..1]);
    assert Itens(form) == [("Nome", "Ana")];
  }

  /** `foto_path`: set when a photo part with a whitelisted name was sent.
      werkzeug's `secure_filename` is not part of this model; the name is
      used as sent. */
  function CaminhoFoto(foto: Option<Arquivo>): (p: Option<string>)
    ensures p.Some? <==> Aceito(foto)
    ensures p.Some? ==> p.value != ""
  {
    if Aceito(foto) then Some(UploadFotosDir + "/" + foto.value.filename) else None
  }

  /** Both template slots hold a non-empty file name. */
  predicate Configurado(psdFrente: Option<string>, psdVerso: Option<string>)
  {
    Preenchido(psdFrente) && Preenchido(psdVerso)
  }

  datatype ErroGeracao = PsdsNaoConfigurados | ErroAoGerar(causa: ErroComposicao)

  /** The two render plans of one generation: front, then back. */
  datatype Geracao = Geracao(frente: Plano, verso: Plano)

  /** `processar_geracao`. `form` is the submitted (name, value) pairs in
      page order; `fotoAbre` says whether Pillow can decode the uploaded
      photo. */
  method ProcessarGeracao(db: Banco, form: seq<(string, string)>, foto: Option<Arquivo>, fotoAbre: bool)
    returns (r: Result<Geracao, ErroGeracao>)
    ensures !Configurado(db.psdFrente, db.psdVerso) ==> r == Failure(PsdsNaoConfigurados)
    ensures Configurado(db.psdFrente, db.psdVerso) ==>
      var frente := GerarPlano(UploadPsdDir + "/" + db.psdFrente.value, DadosDe(Itens(form)), db.campos,
                               CaminhoFoto(foto), db.areaFoto, fotoAbre);
      var verso := GerarPlano(UploadPsdDir + "/" + db.psdVerso.value, DadosDe(Itens(form)), db.campos,
                              None, None, false);
      r == if frente.Failure? then Failure(ErroAoGerar(frente.error))
           else if verso.Failure? then Failure(ErroAoGerar(verso.error))
           else Success(Geracao(frente.value, verso.value))
    ensures r.Success? ==> r.value.verso.foto.None?
    ensures r.Success? ==> r.value.frente.desenhos == r.value.verso.desenhos == Desenhos(db.campos, DadosDe(Itens(form))).value
  {
    var dados := FormParaDados(Itens(form));
    var fotoPath := CaminhoFoto(foto);
    if !Configurado(db.psdFrente, db.psdVerso) {
      return Failure(PsdsNaoConfigurados);
    }
    var frentePath := UploadPsdDir + "/" + db.psdFrente.value;
    var versoPath := UploadPsdDir + "/" + db.psdVerso.value;
    var frente := GerarPlano(frentePath, dados, db.campos, fotoPath, db.areaFoto, fotoAbre);
    if frente.Failure? {
      return Failure(ErroAoGerar(frente.error));
    }
    var verso := GerarPlano(versoPath, dados, db.campos, None, None, false);
    if verso.Failure? {
      return Failure(ErroAoGerar(verso.error));
    }
    r := Success(Geracao(frente.value, verso.value));
  }
}
