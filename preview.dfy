/** `gerar_preview_psd`, in its two versions: the one embedded in
    criar_projeto.py (no error handling) and the one in psd_manager.py
    (errors become None, and the path goes through `os.path.normpath`).

    Pixels are not modelled: the flattened document enters as its size, or
    as the text of the exception raised while opening, flattening or
    saving. The result is the decision taken (shrink to fit the box or keep
    the size) and the path returned to the caller. `sep` is `os.sep` of the
    host: '/' on POSIX, '\\' on Windows. */
module Preview {
  import opened Base

  /** The default `tamanho_max`. */
  const TamanhoMaxPadrao: (int, int) := (800, 800)

  /** What happened to the image and where it was saved. `reduzir` is the
      box handed to `img.thumbnail`, when it was called. */
  datatype Preview = Preview(reduzir: Option<(int, int)>, caminho: string)

  /** `img.width > tamanho_max[0] or img.height > tamanho_max[1]` */
  predicate PrecisaReduzir(dims: (nat, nat), tamanhoMax: (int, int))
  {
    dims.0 > tamanhoMax.0 || dims.1 > tamanhoMax.1
  }

  /** `os.path.join(a, b)` for a relative `b` and an `a` that does not end
      with the separator, which is how it is used here. */
  function Join(a: string, b: string, sep: char): (r: string)
    ensures |r| == |a| + 1 + |b| && r[..|a|] == a && r[|a|] == sep && r[|a| + 1..] == b
  {
    a + [sep] + b
  }

  /** `os.path.join(os.path.join('static', 'previews'), 'preview.png')` */
  function CaminhoPreview(sep: char): string
  {
    Join(Join("static", "previews", sep), "preview.png", sep)
  }

  /** `os.path.normpath` on a path made only of plain names (no '.', '..',
      or doubled separators): on Windows it turns '/' into '\\'; on POSIX
      it changes nothing. */
  function NormPath(p: string, sep: char): string
  {
    if sep == '\\' then ReplaceChar(p, '/', '\\') else p
  }

  /** psd_manager.py's `gerar_preview_psd`: None when anything raised. */
  function GerarPreviewPsd(composto: Result<(nat, nat), string>, tamanhoMax: (int, int), sep: char): (r: Option<Preview>)
    ensures r.None? <==> composto.Failure?
    ensures r.Some? ==> (r.value.reduzir.Some? <==> PrecisaReduzir(composto.value, tamanhoMax))
    ensures r.Some? && r.value.reduzir.Some? ==> r.value.reduzir.value == tamanhoMax
  {
    match composto
    case Failure(_) => None
    case Success(dims) =>
      var reduzir := if PrecisaReduzir(dims, tamanhoMax) then Some(tamanhoMax) else None;
      Some(Preview(reduzir, ReplaceChar(NormPath(CaminhoPreview(sep), sep), '\\', '/')))
  }

  /** The version embedded in criar_projeto.py: the exception propagates
      to the caller, and the path is not normalised. */
  function GerarPreviewEmbutido(composto: Result<(nat, nat), string>, tamanhoMax: (int, int), sep: char): (r: Result<Preview, string>)
    ensures r.Failure? <==> composto.Failure?
    ensures r.Failure? ==> r.error == composto.error
    ensures r.Success? ==> (r.value.reduzir.Some? <==> PrecisaReduzir(composto.value, tamanhoMax))
    ensures r.Success? && r.value.reduzir.Some? ==> r.value.reduzir.value == tamanhoMax
  {
    match composto
    case Failure(e) => Failure(e)
    case Success(dims) =>
      var reduzir := if PrecisaReduzir(dims, tamanhoMax) then Some(tamanhoMax) else None;
      Success(Preview(reduzir, ReplaceChar(CaminhoPreview(sep), '\\', '/')))
  }

  /** With the default box, a preview is shrunk exactly when a side of the
      document is over 800 pixels, and then to fit 800 by 800. */
  lemma PadraoReduzAcimaDe800(dims: (nat, nat), sep: char)
    ensures var r := GerarPreviewPsd(Success(dims), TamanhoMaxPadrao, sep);
            r.Some? && (r.value.reduzir.Some? <==> dims.0 > 800 || dims.1 > 800)
            && (r.value.reduzir.Some? ==> r.value.reduzir.value == (800, 800))
  {
  }

  /** On either host separator, both versions return the same forward-slash
      path, so the browser can load it. */
  lemma CaminhoPortavel(sep: char)
    requires sep == '/' || sep == '\\'
    ensures ReplaceChar(NormPath(CaminhoPreview(sep), sep), '\\', '/') == "static/previews/preview.png"
    ensures ReplaceChar(CaminhoPreview(sep), '\\', '/') == "static/previews/preview.png"
    ensures '\\' !in "static/previews/preview.png"
  {
    var a, b, c := "static", "previews", "preview.png";
    NomesSimples();
    var p := CaminhoPreview(sep);
    SeparadoresTrocados(a, b, c, sep);
    if sep == '\\' {
      SemSeparador(a, b, c, sep);
      ReplaceIdentity(p, '/', '\\');
    }
    CaminhoPosix();
  }

  lemma NomesSimples()
    ensures PlainName("static") && PlainName("previews") && PlainName("preview.png")
  {
  }

  lemma CaminhoPosix()
    ensures Join(Join("static", "previews", '/'), "preview.png", '/') == "static/previews/preview.png"
    ensures '\\' !in "static/previews/preview.png"
  {
  }

  /** A path component with no separator of either kind. */
  predicate PlainName(s: string)
  {
    forall i :: 0 <= i < |s| ==> s[i] != '/' && s[i] != '\\'
  }

  lemma ReplaceIdentity(s: string, from: char, to: char)
    requires from !in s
    ensures ReplaceChar(s, from, to) == s
  {
    var r := ReplaceChar(s, from, to);
    assert forall i :: 0 <= i < |s| ==> r[i] == s[i];
  }

  lemma SemSeparador(a: string, b: string, c: string, sep: char)
    requires PlainName(a) && PlainName(b) && PlainName(c) && sep == '\\'
    ensures '/' !in Join(Join(a, b, sep), c, sep)
  {
    var p := Join(Join(a, b, sep), c, sep);
    assert p == a + [sep] + b + [sep] + c;
    forall i | 0 <= i < |p| ensures p[i] != '/' {
      if i < |a| { assert p[i] == a[i]; }
      else if i == |a| {}
      else if i < |a| + 1 + |b| { assert p[i] == b[i - |a| - 1]; }
      else if i == |a| + 1 + |b| {}
      else { assert p[i] == c[i - |a| - |b| - 2]; }
    }
  }

  lemma SeparadoresTrocados(a: string, b: string, c: string, sep: char)
    requires PlainName(a) && PlainName(b) && PlainName(c) && (sep == '/' || sep == '\\')
    ensures ReplaceChar(Join(Join(a, b, sep), c, sep), '\\', '/') == Join(Join(a, b, '/'), c, '/')
  {
    var p := Join(Join(a, b, sep), c, sep);
    var q := Join(Join(a, b, '/'), c, '/');
    var r := ReplaceChar(p, '\\', '/');
    assert p == a + [sep] + b + [sep] + c;
    assert q == a + ['/'] + b + ['/'] + c;
    forall i | 0 <= i < |p| ensures r[i] == q[i] {
      if i < |a| { assert p[i] == a[i] && q[i] == a[i]; }
      else if i == |a| {}
      else if i < |a| + 1 + |b| { assert p[i] == b[i - |a| - 1] && q[i] == b[i - |a| - 1]; }
      else if i == |a| + 1 + |b| {}
      else { assert p[i] == c[i - |a| - |b| - 2] && q[i] == c[i - |a| - |b| - 2]; }
    }
  }

  /** The two versions agree whenever opening succeeds, on either host. */
  lemma VersoesConcordam(composto: Result<(nat, nat), string>, tamanhoMax: (int, int), sep: char)
    requires sep == '/' || sep == '\\'
    ensures composto.Success? ==> GerarPreviewPsd(composto, tamanhoMax, sep) == Some(GerarPreviewEmbutido(composto, tamanhoMax, sep).value)
  {
    CaminhoPortavel(sep);
  }
}
