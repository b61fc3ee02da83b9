# SISTEMA_OAB_V3 in Dafny

SISTEMA_OAB_V3 generates membership ID cards (front and back) from two
layered Photoshop templates. An administrator uploads the templates. The
system reads the visible layers of the front template and turns every text
layer into an editable field row of the `campos_config` table. The
administrator then marks on a preview where the member's photo goes. To
generate a card, the system draws the submitted values at the field
positions, pastes the resized photo into the marked area of the front, and
composites the text on top.

This project models that pipeline over plain data and proves its
properties:

- layer extraction and filtering (`Camadas`, `PsdManager.ExtrairCamadasPsd`);
- the two delete-then-insert passes that rebuild one side's field rows:
  `salvar_camadas_config` (`CamposConfig.Banco.SalvarCamadasConfig`) and
  `processar_psd_para_banco` (`PsdManager.BancoPsd.ProcessarPsdParaBanco`);
- the compositor's decisions, as a render plan (`Compositor.GerarPlano`),
  plus the in-place photo paste and the text compositing on 2-D pixel
  arrays (`Compositor.Colar`, `Compositor.ComporTexto`, `Compositor.Flatten`);
- the upload whitelist, the config-slot update of `upload_psd` and the
  readiness check of `processar_geracao` (`Aplicacao`);
- the preview's size guard and returned path (`Preview`);
- the two photo-area selectors in the browser: the two-click one of
  static/js/script.js (`Selecao.AreaSelecao`) and the drag one embedded in
  criar_projeto.py (`SelecaoArrasto.AreaSelecaoArrasto`).

criar_projeto.py is a generator script. It holds the original `app.py`,
`psd_manager.py` and `static/js/script.js` as string literals, and the
model cites those by their line numbers in criar_projeto.py.

Behaviours of the code worth knowing:

- Fields are looked up by `nome_campo`.
- Every field row, of both sides, is drawn on both sides.
- Text is drawn with its top-left corner at the row's box, not centred.
- Text is composited over the photo.
- The two-click selector refuses an area when its width or its height is
  under 50 pixels.
- Coordinates chosen on the preview are stored without rescaling to the
  template's size.
- The generation page has one input per editable front row, then one per
  editable back row,
  each named by its `nome_campo`. A name used on both sides is submitted
  twice, and `request.form.items()` yields it once, with its first value.
  So the front's value is drawn on both cards.
- The drag selector shows the area in its field with `Math.round`. The
  area it sends is `parseInt` of the box's style strings, which truncates.
  Unless the pointer positions are whole pixels, the two can differ: for a
  box inside the image, the left and top entries by up to one and the
  right and bottom entries by up to two.

The modules are:

- `Base` (`base.dfy`): Option/Result and the Python string helpers (`rsplit`-style last index, ASCII `lower`, `replace`, `endswith`, `str` of a number).
- `Camadas` (`camadas.dfy`): layers and extraction.
- `CamposConfig` (`campos_config.dfy`): the database of the application and `salvar_camadas_config`.
- `Compositor` (`compositor.dfy`): `gerar_carteirinha`.
- `Aplicacao` (`aplicacao.dfy`): the routes `upload_psd` and `processar_geracao`.
- `PsdManager` (`psd_manager.dfy`): psd_manager.py.
- `Preview` (`preview.dfy`): both versions of `gerar_preview_psd`.
- `Selecao` (`selecao.dfy`): static/js/script.js.
- `SelecaoArrasto` (`selecao_arrasto.dfy`): the selector embedded in criar_projeto.py.

Foreign inputs enter as parameters:

- a design document is its sequence of descendant layers, or None when psd_tools raised anywhere while opening it or walking its layers;
- the flattened preview is its width and height, or the text of the exception;
- whether Pillow can decode the photo is the boolean `fotoAbre`;
- `os.sep` is a character parameter;
- the two-click selector's positions are integers, already rounded by `Math.round`;
- the drag selector's positions are reals, its unrounded pointer offsets.

## Model

| member | source | states |
|---|---|---|
| Base.LastIndexOf | criar_projeto.py:32 | None exactly when the character does not occur. Otherwise the index of an occurrence with none after it, which is where `rsplit(c, 1)` splits. |
| Base.Lower | criar_projeto.py:32 | Same length. Each ASCII capital is mapped to its lower case and every other character is kept. No ASCII capital remains. |
| Base.ReplaceChar | psd_manager.py:47 | Same length. Every `from` becomes `to` and every other character is kept. For distinct characters, no `from` remains. |
| Base.NatToString | psd_manager.py:57 | The decimal text of a number: at least one digit, all digits, no leading zero, and one digit exactly for numbers under 10. |
| Base.ParseNatToString | psd_manager.py:57 | The decimal text of n reads back as n. |
| Base.NatToStringInjective | psd_manager.py:57 | Different numbers have different decimal texts. |
| Camadas.TruncInt | criar_projeto.py:307 | `int()` of a number truncates toward zero: below x by less than 1 for x ≥ 0, above it by less than 1 for x < 0. |
| Camadas.Posicao | criar_projeto.py:307 | A box is always four integers. |
| Camadas.ExtrairCamadas | criar_projeto.py:297-312 | The loop returns exactly the extraction function: visible layers only, in descendant order. |
| Camadas.Visiveis | criar_projeto.py:301-310 | At most one record per layer. Every record has a four-entry box, and has text exactly when its kind is 'type'. |
| Camadas.VisiveisConcat | criar_projeto.py:301-310 | Document order: the records of an earlier part of the document precede those of a later part. |
| Camadas.VisiveisSingle | criar_projeto.py:302-310 | A layer yields its record exactly when it is visible. |
| Camadas.VisiveisMembers | criar_projeto.py:301-310 | Every record comes from a visible layer, and every visible layer yields its record. |
| Camadas.CountsPreserved | criar_projeto.py:301-310 | N visible text layers and M visible other layers give exactly N text records and M other records, whatever the hidden layers are. |
| Camadas.VisiveisShape | criar_projeto.py:304-309 | Text is set exactly on records of kind 'type', and every box has four entries. |
| CamposConfig.NextId | criar_projeto.py:49-56 | The id SQLite gives a new row of a table with `INTEGER PRIMARY KEY` is above every id in the table. |
| CamposConfig.Filtrar | criar_projeto.py:318 | Filtering keeps no more rows than it is given, and every kept row has (or, for a delete, has not) the side asked for. |
| CamposConfig.Inserir | criar_projeto.py:320-331 | The insert loop adds exactly one row per text layer. |
| CamposConfig.Reprocessar | criar_projeto.py:318-331 | A pass leaves the rows of the other sides plus one row per text layer. A row belongs to side t exactly when it comes after all the surviving rows. |
| CamposConfig.IdsCrescentesLeitura | criar_projeto.py:50 | With ids strictly increasing, an id names at most one row, and a side's rows as read back are in id order too. |
| CamposConfig.ReprocessarOutrosLados | criar_projeto.py:318-331 | Rows of every other side come through a pass unchanged, ids included. |
| CamposConfig.ReprocessarLado | criar_projeto.py:318-331 | After a pass, side t has exactly one row per text layer, in layer order. Each row has nome_original = nome_campo = the layer name, the layer's box and editavel = 1. |
| CamposConfig.ReprocessarLayout | criar_projeto.py:318-331 | The surviving rows stay at the front of the table in their order, and every row after them belongs to side t. |
| CamposConfig.ReprocessarIdempotente | criar_projeto.py:318-331 | Two passes with the same layers leave the same table as one pass, ids included. |
| CamposConfig.ReprocessarPreserves | criar_projeto.py:318-331 | A pass keeps ids strictly increasing, and keeps every box at four entries when the layers' boxes are. |
| CamposConfig.Banco.constructor | criar_projeto.py:34-64 | A fresh database: the config row has no templates and no photo area, and the field table is empty. |
| CamposConfig.Banco.SalvarCamadasConfig | criar_projeto.py:314-334 | The delete-then-insert loop leaves the field table equal to the pass function of the old table. It keeps the primary-key invariant and leaves the config row alone. |
| Compositor.Desenhos | criar_projeto.py:367-380 | The text pass draws at most one text per row, and never an empty one. It fails only when some row it would draw has a box of fewer than two entries. |
| Compositor.GerarPlano | criar_projeto.py:351-402 | Fails only as the text pass does. A successful plan has at most one draw per row. A photo is planned only for a template path ending in 'frente.psd', with a photo path set and a photo that decodes. |
| Compositor.ColagemFoto | criar_projeto.py:382-394 | A photo is pasted only when all of these hold: the photo path is set, the area is set, the template path ends with 'frente.psd' and the photo decodes. It is pasted at (x1, y1) with size (x2-x1, y2-y1), each at least 1. Conversely, a four-entry area of positive size under those conditions is always pasted. |
| Compositor.DesenhosConcat | criar_projeto.py:367-380 | Draw order is table order: the text pass over a split table is the two passes concatenated, and the first failing row decides the error. |
| Compositor.DesenhosLinha | criar_projeto.py:370-380 | One row gives one of three results. A non-editable row or an empty value draws nothing. Otherwise the row draws its value at (posicao[0], posicao[1]), or fails if its box is shorter than two entries. |
| Compositor.DesenhosOrigem | criar_projeto.py:367-380 | Every draw comes from an editable row with a non-empty value under its nome_campo, and is that value at that row's top-left corner. |
| Compositor.DesenhosConta | criar_projeto.py:367-380 | There is exactly one draw per editable row with a non-empty value. |
| Compositor.DesenhosChave | criar_projeto.py:373 | The lookup key is nome_campo: the id, the side and nome_original do not affect what is drawn. |
| Compositor.SemValorSemEfeito | criar_projeto.py:370-375 | Removing a skipped row (not editable, or no value) from the table does not change what is drawn. |
| Compositor.DesenhosSemErro | criar_projeto.py:377-378 | A table whose boxes all have four entries never makes the text pass fail. |
| Compositor.GerarPlanoFoto | criar_projeto.py:351-402 | Two compositions that differ only in the photo inputs both succeed or both fail. Two successful compositions that differ only in the table and the values make the same photo decision. |
| Compositor.SemFotoNoVerso | criar_projeto.py:382 | A side given no photo path, or whose template path does not end with 'frente.psd', gets no photo. |
| Compositor.Colar | criar_projeto.py:392 | An opaque paste replaces each base pixel inside the photo's rectangle by the photo's pixel, and nothing outside that rectangle changes. |
| Compositor.ComporTexto | criar_projeto.py:396 | Compositing the text layer gives black where the text covers and the base pixel elsewhere. |
| Compositor.Flatten | criar_projeto.py:392-398 | Given the plan's paste, or none, each pixel of the card is black where text covers it. Otherwise, inside the paste's rectangle, it is the photo's pixel at the offset from (x1, y1). Everywhere else it is the template's pixel. |
| Aplicacao.AllowedFile | criar_projeto.py:31-32 | A name that passes has a last '.' with at least three characters after it. |
| Aplicacao.AllowedFileIff | criar_projeto.py:29-32 | A name passes exactly when it has a '.' and the text after its last '.', lower-cased, is psd, png, jpg or jpeg. |
| Aplicacao.AllowedFileIgnoresCase | criar_projeto.py:32 | "A.PSD" passes. |
| Aplicacao.AllowedFileLastExtension | criar_projeto.py:32 | "x.tar.png" passes and "photo.png.exe" does not: only the last extension counts. |
| Aplicacao.AllowedFileNeedsExtension | criar_projeto.py:32 | "psd" and "a." are refused. |
| Aplicacao.NomePsd | criar_projeto.py:97 | The saved template name always ends with ".psd". A missing tipo gives "None.psd". |
| Aplicacao.UploadPsd | criar_projeto.py:84-118 | See the note under the table. |
| Aplicacao.FrenteRecebeFoto | criar_projeto.py:97-98 | The front template's saved path ends with 'frente.psd', so the compositor treats it as the photo side. |
| Aplicacao.Chaves | criar_projeto.py:220 | A key is in the set exactly when some submitted pair has it. |
| Aplicacao.ItensChaves | criar_projeto.py:220 | `items()` yields every submitted key and no other. |
| Aplicacao.ItensDistintos | criar_projeto.py:220 | `items()` yields each key once. |
| Aplicacao.ItensPrimeiros | criar_projeto.py:220 | Each pair `items()` yields is the first submitted pair with its key. |
| Aplicacao.DadosDe | criar_projeto.py:219-222 | 'foto' is never a key, and the map has no more keys than there are items. |
| Aplicacao.FormParaDados | criar_projeto.py:219-222 | The loop over the items returns exactly the field map of those items. |
| Aplicacao.DadosDeItens | criar_projeto.py:219-222 | Over any items, the keys are the item keys other than 'foto', and each value is an item's value under its key. |
| Aplicacao.DadosDeChaves | criar_projeto.py:219-222 | Over the submitted form, the keys are exactly the submitted keys other than 'foto'. Each value is the first value submitted under its key. |
| Aplicacao.PrimeiroValorVence | criar_projeto.py:219-222 | "Nome" submitted as "Ana" and then "Bia" gives "Nome" → "Ana". |
| Aplicacao.CaminhoFoto | criar_projeto.py:224-229 | A photo path exists exactly when a photo part with a non-empty, whitelisted name was sent. |
| Aplicacao.ProcessarGeracao | criar_projeto.py:218-275 | See the note under the table. |
| PsdManager.ExtrairCamadasPsd | psd_manager.py:7-27 | The visible layers in descendant order, or [] when the file could not be opened. |
| PsdManager.Novas | psd_manager.py:102-107 | One new row per text layer, with ids proximo, proximo + 1, and so on, all of side t and editable. |
| PsdManager.ProcessarLinhas | psd_manager.py:99-107 | A pass leaves the rows of the other sides plus one row per text layer. A row is of side t exactly when it comes after the survivors, and the new ids run on from the counter. |
| PsdManager.NovasShape | psd_manager.py:102-107 | The inserted rows all belong to side t, are one (layer name, t, 1) per text layer in order, and take consecutive ids from the counter. |
| PsdManager.ProcessarOutrosTipos | psd_manager.py:99-107 | Rows of every other tipo_campo come through a pass unchanged. |
| PsdManager.ProcessarLado | psd_manager.py:99-107 | After a pass, side t has exactly one row (nome_campo = layer name, tipo_campo = t, editavel = 1) per text layer, in layer order. |
| PsdManager.ProcessarIdempotente | psd_manager.py:99-107 | Two passes with the same layers leave the same rows as one pass, ignoring ids. |
| PsdManager.BancoPsd.constructor | psd_manager.py:62-89 | A fresh `campos_config` table is empty, with its AUTOINCREMENT counter at 0. |
| PsdManager.BancoPsd.ProcessarPsdParaBanco | psd_manager.py:91-112 | The table becomes the pass function of the old table, with ids continuing from the AUTOINCREMENT counter. The counter advances by the number of text layers. The result is the number of visible layers. |
| PsdManager.BancoPsd.InserirCamadas | psd_manager.py:101-107 | The insert loop appends exactly the new rows of Novas, with ids continuing from the counter, and advances the counter by their number. |
| PsdManager.ResultadoContaTodas | psd_manager.py:93-112 | The result counts every visible layer: the inserted rows plus the visible non-text layers. |
| PsdManager.ResultadoNaoEhInseridas | psd_manager.py:102-112 | One visible image layer and one text layer report 2 but insert 1 row. |
| PsdManager.FalhaApagaLado | psd_manager.py:25-27 | A file that cannot be opened still clears its side. Nothing is inserted, the other sides are kept, and the result is 0. |
| PsdManager.TestarPsd | psd_manager.py:53-59 | Succeeds exactly when the file opens. The message is "PSD aberto com sucesso. Dimensões: WxH", or "Erro ao abrir PSD: " followed by the error. |
| PsdManager.TestarPsdDimensoes | psd_manager.py:57 | The width and height can be read back from a success message, on either side of its 'x'. |
| Preview.Join | psd_manager.py:40-43 | `os.path.join` of two names is the first name, the separator, then the second name. |
| Preview.GerarPreviewPsd | psd_manager.py:29-51 | None exactly when opening, flattening or saving failed. Otherwise the image is shrunk to the box exactly when width > max_w or height > max_h, and kept otherwise. |
| Preview.PadraoReduzAcimaDe800 | psd_manager.py:29-37 | With the default `tamanho_max=(800, 800)`, a preview is shrunk exactly when a side is over 800 pixels, and then to the 800 by 800 box. |
| Preview.GerarPreviewEmbutido | criar_projeto.py:336-349 | The same size guard, with the exception propagated to the caller. |
| Preview.CaminhoPortavel | psd_manager.py:40-47 | With either separator, both versions return "static/previews/preview.png", which contains no backslash. |
| Preview.VersoesConcordam | criar_projeto.py:336-349 | The two versions return the same preview whenever the document opens. |
| Selecao.PrimeiroClique | static/js/script.js:30-37 | A first click sets x1 and y1 to the click and keeps x2 and y2. |
| Selecao.SegundoClique | static/js/script.js:42-51 | After a second click, x1 ≤ x2 and y1 ≤ y2, so width and height are not negative. {x1, x2} is {first x, second x}, and likewise for y. |
| Selecao.SelecaoSoDependeDosCliques | static/js/script.js:30-51 | A completed selection depends only on its two clicks. It does not depend on the earlier corners or on which corner came first. |
| Selecao.AreaPayload | static/js/script.js:133-139 | Nothing is sent when width or height is under 50. Otherwise the corners are sent unchanged. |
| Selecao.SelecaoSalvavel | static/js/script.js:133-139 | A two-click selection can be saved exactly when the clicks are at least 50 apart on both axes, in either order. |
| Selecao.CarregadaDe | static/js/script.js:72-73 | A loaded list [a0, a1, a2, a3, ...] becomes x1=a0, y1=a1, x2=a2, y2=a3. A missing or unreadable list changes nothing. |
| Selecao.CarregarNaoValida | static/js/script.js:72-73 | Loading puts nothing in order: [100, 100, 0, 0] loads as x1 > x2, and saving it is refused. |
| Selecao.AreaSelecao.constructor | static/js/script.js:3-23 | A new selector has zero corners and the counter at 0, then loads the saved area. |
| Selecao.AreaSelecao.Clicar | static/js/script.js:25-64 | The counter flips between 0 and 1 and stays 0 or 1. A first click follows PrimeiroClique, a second click SegundoClique, using the literal swaps. |
| Selecao.AreaSelecao.CarregarAreaExistente | static/js/script.js:66-87 | The corners become CarregadaDe of the saved list. The counter is unchanged. |
| Selecao.AreaSelecao.MostrarCoordenadas | static/js/script.js:89-91 | Reports x2-x1 and y2-y1. One of them is under 50 exactly when saving would send nothing. |
| Selecao.AreaSelecao.Limpar | static/js/script.js:117-119 | The counter goes to 0 and all four corners to 0. |
| Selecao.AreaSelecao.Salvar | static/js/script.js:131-146 | Sends nothing when width or height is under 50. Otherwise it sends the current corners unchanged. |
| SelecaoArrasto.Round | criar_projeto.py:643 | `Math.round` gives the integer within half a pixel, halves rounded up. |
| SelecaoArrasto.ParseIntPx | criar_projeto.py:647-650 | `parseInt` of a non-negative "Npx" string is the whole part of N. |
| SelecaoArrasto.CaixaDe | criar_projeto.py:630-634 | The box starts at the smaller coordinate of each axis and reaches the larger one, with non-negative width and height. |
| SelecaoArrasto.CampoDe | criar_projeto.py:642-643 | The field holds four numbers. |
| SelecaoArrasto.AreaDe | criar_projeto.py:647-652 | The area sent is four numbers, ordered on each axis whose size is not negative. |
| SelecaoArrasto.AreaNormalizada | criar_projeto.py:630-652 | The area sent is ordered on both axes whichever way the drag went, and swapping the two corners draws the same box. |
| SelecaoArrasto.CampoIgualAreaSeInteira | criar_projeto.py:630-652 | On a box of whole pixels, the field and the area sent are equal. |
| SelecaoArrasto.CampoDifereDoEnviado | criar_projeto.py:630-652 | A press at x = 10.6 and a last drag position at x = 60.2 show x from 11 to 60 in the field, but send 10 to 59. |
| SelecaoArrasto.CampoMenosEnviado | criar_projeto.py:630-652 | For a box inside the image, the field is never below the area sent: left and top are at most one above, right and bottom at most two. |
| SelecaoArrasto.CampoDifereDeDois | criar_projeto.py:630-652 | The gap of two occurs: a press at x = 0.75 and a last drag position at x = 2.5 show x2 = 3 in the field but send 1. |
| SelecaoArrasto.ArrastoIgualCliques | criar_projeto.py:582-652 | At whole-pixel points, a press at one point and a last drag position at another give a field and a sent area equal to the two-click selector's corners after clicks at the same points. |
| SelecaoArrasto.AreaSelecaoArrasto.constructor | criar_projeto.py:540-563 | A new selector: zero corners, not dragging, a hidden box never drawn, an empty area field. |
| SelecaoArrasto.AreaSelecaoArrasto.AtualizarSelecao | criar_projeto.py:630-644 | Sets the box from the smaller corner and the distances, shows it, and writes the rounded area into the field. |
| SelecaoArrasto.AreaSelecaoArrasto.IniciarSelecao | criar_projeto.py:582-596 | Both corners at the press point, dragging, a zero-size box there, and the field holds that box's rounded area. |
| SelecaoArrasto.AreaSelecaoArrasto.DesenharSelecao | criar_projeto.py:598-614 | Ignored unless dragging. Otherwise moves the second corner, redraws the box from both corners and writes its rounded area into the field. |
| SelecaoArrasto.ArrastoInteiro | criar_projeto.py:582-652 | A press at (10, 20) and a last move to (70, 90) leave [10, 20, 70, 90] both in the field and in the area sent. |
| SelecaoArrasto.AreaSelecaoArrasto.SalvarArea | criar_projeto.py:646-652 | Reads the drawn box back as [left, top, left+width, top+height]. |
| SelecaoArrasto.AreaSelecaoArrasto.FinalizarSelecao | criar_projeto.py:616-628 | See the note under the table. |
| SelecaoArrasto.AreaSelecaoArrasto.LimparSelecao | criar_projeto.py:673-677 | Hides the box and clears the corners and the field. The box's last geometry and the drag flag stay. |

The rows marked "see the note" state more than fits in a cell:

- **Aplicacao.UploadPsd.** An accepted upload (a file part with a non-empty, whitelisted name) is saved as `f"{tipo}.psd"`.
  - tipo 'frente' sets psd_frente; any other value, None included, sets psd_verso.
  - The fields are rebuilt only for 'frente', and only when the file opened.
  - A refused upload changes nothing.
  - The primary-key invariant and complete boxes are kept.
- **Aplicacao.ProcessarGeracao.** Generation refuses when either template slot is empty.
  - Otherwise it is the front plan (with the photo and area) followed by the back plan (with neither).
  - Both plans are built from every row of the table, of both sides.
  - The back never gets a photo.
  - Both sides get the same draws.
  - The values are the submitted pairs as `items()` yields them, so a name submitted twice keeps its first value.
- **SelecaoArrasto.AreaSelecaoArrasto.FinalizarSelecao.** Without a drag, nothing is sent and nothing changes.
  - Otherwise the drag ends and the drawn box's area, truncated as `parseInt` reads it, is sent.
  - When the box matches the corners, that area is the one their box gives.
  - When the box is in whole pixels, that area equals the field's content. Otherwise they can differ, as `CampoDifereDoEnviado` shows.
  - The release position is never read.

## Left out

- Flask routing, request parsing, redirects, templates and `send_file` are not modelled. The model takes the values they deliver.
- SQL and sqlite connections are not modelled. Tables are in-memory sequences in id order, and the config row is three fields.
- psd_tools and Pillow internals are foreign: opening, `composite`, `thumbnail` resampling, `resize`, font loading and text rasterisation. They enter as parameters: layers, sizes, the decodability flag, a text coverage mask and a photo already resized.
- Colors are modelled only for opaque pixels. Alpha blending of semi-transparent pixels in `paste` and `alpha_composite` is left out, and so is the final RGB conversion.
- JSON encoding of `posicao` and `area_foto` is taken as an exact round trip of integer lists.
- `Aplicacao.CaminhoFoto`: werkzeug's `secure_filename` is not modelled. The name is used as sent.
- `Preview.NormPath`: `os.path.normpath` is modelled only for the fixed preview path, where its only effect is the Windows separator conversion.
- `Preview.GerarPreviewPsd`: the size after `thumbnail` is Pillow's aspect-ratio computation and is not modelled. The plan records only that the image was shrunk and to which box.
- `Selecao.CarregadaDe`: a saved list with fewer than four entries would leave `undefined` corners in JavaScript. Such a list is modelled as loading nothing.
- `SelecaoArrasto.ParseIntPx`: `parseInt` of a number's text is modelled as truncation toward zero. For numbers below 1e-6, or from 1e21 upward, JavaScript writes an exponent and `parseInt` would read only the leading digits. Pointer offsets are modelled as exact reals, not double-precision values.
- `Selecao.AreaSelecao.Clicar`: positions are integers after `Math.round`. The unrounded pixel offsets written to the selection box's style are not modelled.
- `Aplicacao.ProcessarGeracao`: failures inside psd_tools or Pillow that the route's `except` turns into an error page are not modelled. The model's only composition error is a field box with fewer than two entries.
- `PsdManager.BancoPsd.ProcessarPsdParaBanco`: the AUTOINCREMENT counter is modelled on the invariant that no id exceeds it, which holds for every table built through this class.
- The DOM side of both scripts is UI and asynchronous plumbing and is not modelled. This includes event wiring, the `fetch` calls and their responses, alerts, status messages, the coordinates table's HTML, the field checkboxes and names, the photo preview, form validation and animations. One consequence: script.js posts its corners to `/api/salvar_area`, a route the embedded application does not define. Only the embedded selector's `/api/salvar_area_foto` stores the area that `processar_geracao` reads.
- The routes `index`, `configurar`, `salvar_area_foto`, `salvar_campos`, `visualizar`, `gerar` and `download` are left out. They are request plumbing, or overwrite a stored value with what the browser sends. `configurar` and `visualizar` only pass the template path to `gerar_preview_psd`, which is modelled.
- app.py in the repository is an HTML template with no logic and is not part of this model.
- The project-writing loop of criar_projeto.py and its embedded HTML and CSS are file output and presentation.
