/** The lead-capture endpoint (`POST /api/contact`): it checks the required
    fields, prepares the service-account key, checks the credentials, makes
    sure the spreadsheet has a sheet and appends one row with defaults for the
    optional fields. The spreadsheet service is given as the outcomes of its
    calls. */
module ContactRoute {
  import opened Wrappers
  import opened JsStrings

  /** The parsed JSON body; every field may be missing. */
  datatype ContactBody = ContactBody(
    nombre: Option<string>, apellido: Option<string>, telefono: Option<string>,
    email: Option<string>, busqueda: Option<string>, mensaje: Option<string>)

  /** The three environment variables the endpoint reads. */
  datatype Env = Env(serviceAccountEmail: Option<string>, privateKey: Option<string>, spreadsheetId: Option<string>)

  /** How the spreadsheet service answers: whether `loadInfo` succeeds, whether the
      document already has a first sheet, and whether `addSheet` and `addRow` succeed. */
  datatype SheetService = SheetService(loadOk: bool, hasFirstSheet: bool, addSheetOk: bool, addRowOk: bool)

  datatype Row = Row(
    fecha: string, nombre: string, apellido: string, telefono: string,
    email: string, busqueda: string, mensaje: string)

  datatype ResponseBody = SuccessBody | ErrorBody(error: string)
  datatype Response = Response(status: int, body: ResponseBody)

  /** What the endpoint did to the spreadsheet. */
  datatype NewSheet = NewSheet(title: string, headerValues: seq<string>)
  datatype SheetEffect = SheetEffect(createdSheet: Option<NewSheet>, appended: Option<Row>)

  const MissingFieldsMessage: string := "Nombre, apellido y email son campos requeridos"
  const ConfigErrorMessage: string := "Error de configuración del servidor"
  const ProcessingErrorMessage: string := "Error al procesar el formulario"
  const SheetTitle: string := "Contactos"
  const Headers: seq<string> := ["Fecha", "Nombre", "Apellido", "Teléfono", "Email", "Búsqueda", "Mensaje"]

  // ------------------------------------------------------------ validation

  predicate HasRequiredFields(body: ContactBody) {
    Truthy(body.nombre) && Truthy(body.apellido) && Truthy(body.email)
  }

  // ------------------------------------------------------------ private key

  /** `key.replace(/\\n/g, '\n')`: every backslash followed by `n`, left to right,
      becomes one newline character. */
  function UnescapeNewlines(key: string): (r: string)
    ensures |r| <= |key|
  {
    if |key| >= 2 && key[0] == '\\' && key[1] == 'n' then "\n" + UnescapeNewlines(key[2..])
    else if key == [] then []
    else [key[0]] + UnescapeNewlines(key[1..])
  }

  /** A backslash immediately followed by `n` somewhere in `s`. */
  predicate HasEscapedNewline(s: string) {
    exists i :: 0 <= i < |s| - 1 && s[i] == '\\' && s[i + 1] == 'n'
  }

  /** The first character of the unescaped key is a newline or the key's own first character. */
  lemma UnescapeHead(key: string)
    requires key != []
    ensures UnescapeNewlines(key) != []
    ensures UnescapeNewlines(key)[0] == '\n' || UnescapeNewlines(key)[0] == key[0]
  {
  }

  /** After unescaping no escaped newline is left. */
  lemma {:induction false} UnescapeLeavesNoEscape(key: string)
    ensures !HasEscapedNewline(UnescapeNewlines(key))
    decreases |key|
  {
    var r := UnescapeNewlines(key);
    if |key| >= 2 && key[0] == '\\' && key[1] == 'n' {
      UnescapeLeavesNoEscape(key[2..]);
      var rest := UnescapeNewlines(key[2..]);
      assert r == "\n" + rest;
      forall i | 0 <= i < |r| - 1 && r[i] == '\\' ensures r[i + 1] != 'n' {
        assert i > 0 && r[i] == rest[i - 1] && r[i + 1] == rest[i];
      }
    } else if key != [] {
      UnescapeLeavesNoEscape(key[1..]);
      var rest := UnescapeNewlines(key[1..]);
      assert r == [key[0]] + rest;
      forall i | 0 <= i < |r| - 1 && r[i] == '\\' ensures r[i + 1] != 'n' {
        if i == 0 {
          UnescapeHead(key[1..]);
          assert rest[0] == '\n' || rest[0] == key[1];
        } else {
          assert r[i] == rest[i - 1] && r[i + 1] == rest[i];
        }
      }
    }
  }

  /** A key without escaped newlines is left as it is. */
  lemma {:induction false} UnescapeKeepsPlain(key: string)
    requires !HasEscapedNewline(key)
    ensures UnescapeNewlines(key) == key
    decreases |key|
  {
    if key != [] {
      assert !HasEscapedNewline(key[1..]) by {
        forall i | 0 <= i < |key| - 2 && key[1..][i] == '\\' ensures key[1..][i + 1] != 'n' {
          assert key[1..][i] == key[i + 1] && key[1..][i + 1] == key[i + 2];
        }
      }
      UnescapeKeepsPlain(key[1..]);
    }
  }

  /** The inverse direction: every newline character written as a backslash and `n`. */
  function Escape(s: string): (r: string)
    ensures '\n' !in r
  {
    if s == [] then []
    else (if s[0] == '\n' then "\\n" else [s[0]]) + Escape(s[1..])
  }

  /** Escaping the unescaped key gives back a key that had no newline characters. */
  lemma {:induction false} EscapeUnescape(key: string)
    requires '\n' !in key
    ensures Escape(UnescapeNewlines(key)) == key
    decreases |key|
  {
    if |key| >= 2 && key[0] == '\\' && key[1] == 'n' {
      var rest := UnescapeNewlines(key[2..]);
      EscapeUnescape(key[2..]);
      assert ("\n" + rest)[1..] == rest;
      assert key == "\\n" + key[2..];
    } else if key != [] {
      var rest := UnescapeNewlines(key[1..]);
      EscapeUnescape(key[1..]);
      assert ([key[0]] + rest)[1..] == rest;
      assert key == [key[0]] + key[1..];
    }
  }

  /** Unescaping the escaped key gives back a key that had no escaped newlines. */
  lemma {:induction false} UnescapeEscape(s: string)
    requires !HasEscapedNewline(s)
    ensures UnescapeNewlines(Escape(s)) == s
    decreases |s|
  {
    if s != [] {
      assert !HasEscapedNewline(s[1..]) by {
        forall i | 0 <= i < |s| - 2 && s[1..][i] == '\\' ensures s[1..][i + 1] != 'n' {
          assert s[1..][i] == s[i + 1] && s[1..][i + 1] == s[i + 2];
        }
      }
      UnescapeEscape(s[1..]);
      var e := Escape(s[1..]);
      if s[0] == '\n' {
        assert ("\\n" + e)[2..] == e;
      } else {
        assert ([s[0]] + e)[1..] == e;
        if s[0] == '\\' && e != [] {
          assert s[1] != 'n';
          assert e[0] == (if s[1] == '\n' then '\\' else s[1]);
        }
      }
      assert s == [s[0]] + s[1..];
    }
  }

  /** Unescaping twice is unescaping once. */
  lemma UnescapeIdempotent(key: string)
    ensures UnescapeNewlines(UnescapeNewlines(key)) == UnescapeNewlines(key)
  {
    UnescapeLeavesNoEscape(key);
    UnescapeKeepsPlain(UnescapeNewlines(key));
  }

  /** A string that starts and ends with `"` (JavaScript `startsWith`/`endsWith`,
      so a lone `"` counts). */
  predicate Quoted(s: string) {
    StartsWith(s, "\"") && EndsWith(s, "\"")
  }

  /** `key.slice(1, -1)` when the key is quoted, else the key. */
  function StripQuotes(key: string): (r: string)
    ensures Quoted(key) && |key| >= 2 ==> r == key[1..|key| - 1]
    ensures Quoted(key) && |key| < 2 ==> r == ""
    ensures !Quoted(key) ==> r == key
  {
    if Quoted(key) then (if |key| >= 2 then key[1..|key| - 1] else "") else key
  }

  /** Quotes are stripped once: a key wrapped in quotes loses exactly that pair, even
      when it is itself quoted. */
  lemma StripQuotesOnce(k: string)
    ensures StripQuotes("\"" + k + "\"") == k
  {
    var q := "\"" + k + "\"";
    assert q[0] == '"' && q[|q| - 1] == '"';
    assert q[..1] == "\"" && q[|q| - 1..] == "\"";
    assert q[1..|q| - 1] == k;
  }

  /** The key as the endpoint uses it; the sequence of reassignments of `privateKey`. */
  method NormalizePrivateKey(raw: Option<string>) returns (key: Option<string>)
    ensures !Truthy(raw) ==> key == raw
    ensures Truthy(raw) ==> key == Some(StripQuotes(UnescapeNewlines(raw.value)))
  {
    key := raw;
    if Truthy(key) {
      var k := UnescapeNewlines(key.value);
      if StartsWith(k, "\"") && EndsWith(k, "\"") {
        k := if |k| >= 2 then k[1..|k| - 1] else "";
      }
      key := Some(k);
    }
  }

  /** A slice of a string without escaped newlines has none either. */
  lemma SliceKeepsNoEscape(s: string, lo: nat, hi: nat)
    requires lo <= hi <= |s| && !HasEscapedNewline(s)
    ensures !HasEscapedNewline(s[lo..hi])
  {
    var t := s[lo..hi];
    forall i | 0 <= i < |t| - 1 && t[i] == '\\' ensures t[i + 1] != 'n' {
      assert t[i] == s[lo + i] && t[i + 1] == s[lo + i + 1];
    }
  }

  /** The normalised key holds no escaped newline, quoted or not, and is never longer
      than the raw key. */
  lemma NormalizedKeyShape(raw: string)
    ensures |StripQuotes(UnescapeNewlines(raw))| <= |raw|
    ensures !HasEscapedNewline(StripQuotes(UnescapeNewlines(raw)))
  {
    var u := UnescapeNewlines(raw);
    UnescapeLeavesNoEscape(raw);
    if Quoted(u) && |u| >= 2 {
      SliceKeepsNoEscape(u, 1, |u| - 1);
    }
  }

  /** An unescaped key that starts with a quote came from a key that starts with one. */
  lemma UnescapeQuoteHead(raw: string)
    requires UnescapeNewlines(raw) != [] && UnescapeNewlines(raw)[0] == '"'
    ensures raw != [] && raw[0] == '"' && UnescapeNewlines(raw) == "\"" + UnescapeNewlines(raw[1..])
  {
  }

  /** Only the empty key unescapes to nothing. */
  lemma UnescapeEmpty(raw: string)
    ensures UnescapeNewlines(raw) == [] <==> raw == []
  {
    if raw != [] {
      UnescapeHead(raw);
    }
  }

  /** Only a lone quote unescapes to a lone quote. */
  lemma UnescapeLoneQuote(raw: string)
    ensures UnescapeNewlines(raw) == "\"" <==> raw == "\""
  {
    if UnescapeNewlines(raw) == "\"" {
      UnescapeQuoteHead(raw);
      UnescapeEmpty(raw[1..]);
      assert raw == [raw[0]] + raw[1..];
    }
  }

  /** Only a pair of quotes unescapes to a pair of quotes. */
  lemma UnescapeQuotePair(raw: string)
    ensures UnescapeNewlines(raw) == "\"\"" <==> raw == "\"\""
  {
    if UnescapeNewlines(raw) == "\"\"" {
      UnescapeQuoteHead(raw);
      assert UnescapeNewlines(raw[1..]) == UnescapeNewlines(raw)[1..] == "\"";
      UnescapeLoneQuote(raw[1..]);
      assert raw == [raw[0]] + raw[1..];
    } else if raw == "\"\"" {
      assert raw[1..] == "\"";
      UnescapeLoneQuote(raw[1..]);
    }
  }

  /** Stripping quotes leaves nothing exactly from nothing, a lone quote or a pair of quotes. */
  lemma StripQuotesEmpty(u: string)
    ensures StripQuotes(u) == "" <==> u == "" || u == "\"" || u == "\"\""
  {
    if Quoted(u) && |u| >= 2 {
      assert u[..1] == "\"" && u[|u| - 1..] == "\"";
      if |u| == 2 {
        assert u == [u[0], u[1]];
      } else {
        assert |u[1..|u| - 1]| > 0;
      }
    }
  }

  /** The normalised key is empty exactly for the empty key, a lone quote and a pair of
      quotes; the credential check then rejects it. */
  lemma QuotesOnlyKeyIsEmpty(raw: string)
    ensures StripQuotes(UnescapeNewlines(raw)) == "" <==> raw == "" || raw == "\"" || raw == "\"\""
  {
    StripQuotesEmpty(UnescapeNewlines(raw));
    UnescapeEmpty(raw);
    UnescapeLoneQuote(raw);
    UnescapeQuotePair(raw);
  }

  // ------------------------------------------------------------ the row

  /** The row appended for a valid body; `fecha` is the formatted time of the request. */
  function BuildRow(body: ContactBody, fecha: string): (row: Row)
    requires HasRequiredFields(body)
    ensures row.nombre == body.nombre.value && row.apellido == body.apellido.value
    ensures row.email == body.email.value && row.fecha == fecha
    ensures row.telefono == (if Truthy(body.telefono) then body.telefono.value else "No proporcionado")
    ensures row.busqueda == (if Truthy(body.busqueda) then body.busqueda.value else "No especificado")
    ensures row.mensaje == (if Truthy(body.mensaje) then body.mensaje.value else "Sin mensaje")
    ensures row.nombre != "" && row.apellido != "" && row.email != ""
    ensures row.telefono != "" && row.busqueda != "" && row.mensaje != ""
  {
    Row(fecha, body.nombre.value, body.apellido.value, Or(body.telefono, "No proporcionado"),
        body.email.value, Or(body.busqueda, "No especificado"), Or(body.mensaje, "Sin mensaje"))
  }

  // ------------------------------------------------------------ the handler

  /** The response and spreadsheet effect the handler specifies. `body` is `None` when the
      request body is not valid JSON. */
  function Outcome(body: Option<ContactBody>, env: Env, sheets: SheetService, fecha: string): (r: (Response, SheetEffect))
    ensures r.0.status == 200 || r.0.status == 400 || r.0.status == 500
    ensures r.1.appended.Some? ==> r.0 == Response(200, SuccessBody)
  {
    if body.None? then (Response(500, ErrorBody(ProcessingErrorMessage)), SheetEffect(None, None))
    else if !HasRequiredFields(body.value) then (Response(400, ErrorBody(MissingFieldsMessage)), SheetEffect(None, None))
    else
      var key := if Truthy(env.privateKey) then Some(StripQuotes(UnescapeNewlines(env.privateKey.value))) else env.privateKey;
      if !Truthy(env.serviceAccountEmail) || !Truthy(key) || !Truthy(env.spreadsheetId) then
        (Response(500, ErrorBody(ConfigErrorMessage)), SheetEffect(None, None))
      else if !sheets.loadOk then (Response(500, ErrorBody(ProcessingErrorMessage)), SheetEffect(None, None))
      else
        var created := if sheets.hasFirstSheet then None else Some(NewSheet(SheetTitle, Headers));
        if !sheets.hasFirstSheet && !sheets.addSheetOk then
          (Response(500, ErrorBody(ProcessingErrorMessage)), SheetEffect(None, None))
        else if !sheets.addRowOk then (Response(500, ErrorBody(ProcessingErrorMessage)), SheetEffect(created, None))
        else (Response(200, SuccessBody), SheetEffect(created, Some(BuildRow(body.value, fecha))))
  }

  /** `POST`: validation first, then the key, the credentials, the sheet and the row;
      any throw becomes a 500 with the generic message. */
  method Post(body: Option<ContactBody>, env: Env, sheets: SheetService, fecha: string)
    returns (response: Response, effect: SheetEffect)
    ensures (response, effect) == Outcome(body, env, sheets, fecha)
  {
    effect := SheetEffect(None, None);
    if body.None? {
      return Response(500, ErrorBody(ProcessingErrorMessage)), effect;
    }
    var form := body.value;
    if !Truthy(form.nombre) || !Truthy(form.apellido) || !Truthy(form.email) {
      return Response(400, ErrorBody(MissingFieldsMessage)), effect;
    }
    var privateKey := NormalizePrivateKey(env.privateKey);
    if !Truthy(env.serviceAccountEmail) || !Truthy(privateKey) || !Truthy(env.spreadsheetId) {
      return Response(500, ErrorBody(ConfigErrorMessage)), effect;
    }
    if !sheets.loadOk {
      return Response(500, ErrorBody(ProcessingErrorMessage)), effect;
    }
    var hasSheet := sheets.hasFirstSheet;
    if !hasSheet {
      if !sheets.addSheetOk {
        return Response(500, ErrorBody(ProcessingErrorMessage)), effect;
      }
      effect := effect.(createdSheet := Some(NewSheet(SheetTitle, Headers)));
      hasSheet := true;
    }
    if !sheets.addRowOk {
      return Response(500, ErrorBody(ProcessingErrorMessage)), effect;
    }
    effect := effect.(appended := Some(BuildRow(form, fecha)));
    response := Response(200, SuccessBody);
  }

  /** The endpoint's promises: a body that is not JSON is the generic 500; a missing required
      field is a 400 that touches nothing; missing credentials (or a key that normalises to
      nothing) are a 500 that touches nothing; a failing spreadsheet call is the generic 500
      and appends nothing; a request whose every step succeeds is a 200 that appends its row;
      a row is appended exactly on success; a sheet with the seven headers is created only when there was none. */
  lemma OutcomeContract(body: Option<ContactBody>, env: Env, sheets: SheetService, fecha: string)
    ensures var (resp, eff) := Outcome(body, env, sheets, fecha);
      && (resp.status == 200 || resp.status == 400 || resp.status == 500)
      && (body.Some? && !HasRequiredFields(body.value) ==>
            resp == Response(400, ErrorBody(MissingFieldsMessage)) && eff == SheetEffect(None, None))
      && (resp.status == 400 ==> body.Some? && !HasRequiredFields(body.value))
      && (body.Some? && HasRequiredFields(body.value) && !Truthy(env.serviceAccountEmail) ==>
            resp == Response(500, ErrorBody(ConfigErrorMessage)) && eff == SheetEffect(None, None))
      && (body.Some? && HasRequiredFields(body.value) && !Truthy(env.privateKey) ==>
            resp == Response(500, ErrorBody(ConfigErrorMessage)) && eff == SheetEffect(None, None))
      && (body.Some? && HasRequiredFields(body.value) && Truthy(env.privateKey)
          && StripQuotes(UnescapeNewlines(env.privateKey.value)) == "" ==>
            resp == Response(500, ErrorBody(ConfigErrorMessage)) && eff == SheetEffect(None, None))
      && (body.Some? && HasRequiredFields(body.value) && !Truthy(env.spreadsheetId) ==>
            resp == Response(500, ErrorBody(ConfigErrorMessage)) && eff == SheetEffect(None, None))
      && (body.None? ==> resp == Response(500, ErrorBody(ProcessingErrorMessage)) && eff == SheetEffect(None, None))
      && (body.Some? && HasRequiredFields(body.value) && Truthy(env.serviceAccountEmail)
          && Truthy(env.privateKey) && StripQuotes(UnescapeNewlines(env.privateKey.value)) != ""
          && Truthy(env.spreadsheetId)
          && (!sheets.loadOk || (!sheets.hasFirstSheet && !sheets.addSheetOk) || !sheets.addRowOk) ==>
            resp == Response(500, ErrorBody(ProcessingErrorMessage)) && eff.appended.None?)
      && (body.Some? && HasRequiredFields(body.value) && Truthy(env.serviceAccountEmail)
          && Truthy(env.privateKey) && StripQuotes(UnescapeNewlines(env.privateKey.value)) != ""
          && Truthy(env.spreadsheetId)
          && sheets.loadOk && (sheets.hasFirstSheet || sheets.addSheetOk) && sheets.addRowOk ==>
            resp == Response(200, SuccessBody) && eff.appended == Some(BuildRow(body.value, fecha)))
      && (resp.status == 200 <==> resp.body == SuccessBody)
      && (resp.status == 200 <==> eff.appended.Some?)
      && (eff.appended.Some? ==>
            body.Some? && HasRequiredFields(body.value) && eff.appended.value == BuildRow(body.value, fecha))
      && (eff.createdSheet.Some? ==> !sheets.hasFirstSheet && eff.createdSheet.value == NewSheet(SheetTitle, Headers))
      && (resp.status == 200 ==> (eff.createdSheet.Some? <==> !sheets.hasFirstSheet))
  {
  }
}
