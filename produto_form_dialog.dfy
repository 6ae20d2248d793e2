/**
 * The new-product dialog: five text fields, their validators, the touched
 * set and error map that drive live feedback, and the payload a valid form
 * submits.
 */
module ProdutoFormDialog {
  import opened Wrappers
  import opened Text
  import opened Numeral

  /** The category menu: each code the API accepts with the label the menu shows. */
  const CATEGORIA_OPCOES: seq<(string, string)> := [
    ("PIZZA", "Pizza"), ("PORCAO", "Porção"), ("SOBREMESA", "Sobremesa"), ("PIZZA_DOCE", "Pizza Doce"),
    ("ESFIHA", "Esfiha"), ("ESFIHA_DOCE", "Esfiha Doce"), ("BEBIDAS", "Bebidas")]

  /** The form's fields, in the order `Object.keys(formData)` lists them. */
  datatype Campo = Nome | Preco | Quantidade | Ingredientes | CategoriaProduto

  const CAMPOS: seq<Campo> := [Nome, Preco, Quantidade, Ingredientes, CategoriaProduto]

  lemma CamposCompletos(c: Campo)
    ensures c in CAMPOS
  {
  }

  /** The raw text of every input. */
  datatype FormData = FormData(
    nome: string, preco: string, quantidade: string, ingredientes: string, categoriaProduto: string)
  {
    function Get(c: Campo): string {
      match c
      case Nome => nome
      case Preco => preco
      case Quantidade => quantidade
      case Ingredientes => ingredientes
      case CategoriaProduto => categoriaProduto
    }

    /** `{...prev, [name]: value}`. */
    function With(c: Campo, value: string): (r: FormData)
      ensures r.Get(c) == value
      ensures forall d :: d != c ==> r.Get(d) == Get(d)
    {
      match c
      case Nome => this.(nome := value)
      case Preco => this.(preco := value)
      case Quantidade => this.(quantidade := value)
      case Ingredientes => this.(ingredientes := value)
      case CategoriaProduto => this.(categoriaProduto := value)
    }
  }

  const FORM_VAZIO := FormData("", "", "", "", "")

  /** The message for a field left empty. */
  function Obrigatorio(c: Campo): string {
    match c
    case Nome => "Nome é obrigatório"
    case Preco => "Preço é obrigatório"
    case Quantidade => "Quantidade é obrigatória"
    case Ingredientes => "Ingredientes são obrigatórios"
    case CategoriaProduto => "Categoria é obrigatória"
  }

  /** The message for a filled-in field whose content is rejected (the category has none). */
  function Invalido(c: Campo): string
    requires c != CategoriaProduto
  {
    match c
    case Nome => "Nome deve ter no mínimo 3 caracteres"
    case Preco => "Preço deve ser maior que zero"
    case Quantidade => "Quantidade deve ser um número positivo"
    case Ingredientes => "Ingredientes devem ter no mínimo 5 caracteres"
  }

  predicate TemNaoBranco(s: string) {
    exists i :: 0 <= i < |s| && !IsWhitespace(s[i])
  }

  /** When a field counts as not filled in: text fields when all white space, the others when empty. */
  predicate Ausente(c: Campo, value: string) {
    match c
    case Nome => !TemNaoBranco(value)
    case Ingredientes => !TemNaoBranco(value)
    case _ => value == ""
  }

  /** `parseInt(value) < 0` for a literal; NaN compares false. */
  predicate InteiroNegativo(n: Literal)
    requires WellFormed(n)
  {
    var v := IntegerPart(n);
    v.Some? && v.value < 0
  }

  /**
   * What each field accepts: a name with a visible character and at least 3
   * UTF-16 code units (JavaScript's `length`) counted before trimming; a positive price; a quantity whose
   * integer part is not negative; ingredients like the name but with 5; any
   * non-empty category.
   */
  predicate CampoValido(c: Campo, value: string) {
    match c
    case Nome => TemNaoBranco(value) && Utf16Length(value) >= 3
    case Preco => Parse(value).Some? && IsPositive(Parse(value).value)
    case Quantidade => Parse(value).Some? && !InteiroNegativo(Parse(value).value)
    case Ingredientes => TemNaoBranco(value) && Utf16Length(value) >= 5
    case CategoriaProduto => value != ""
  }

  /** `validateField`: the empty message exactly for an accepted value, else the field's message. */
  function ValidateField(c: Campo, value: string): (msg: string)
    ensures msg == "" <==> CampoValido(c, value)
    ensures msg == Obrigatorio(c) <==> Ausente(c, value)
    ensures c != CategoriaProduto && !Ausente(c, value) && !CampoValido(c, value) ==> msg == Invalido(c)
  {
    match c
    case Nome =>
      if IsBlank(value) then Obrigatorio(c)
      else if Utf16Length(value) < 3 then Invalido(c)
      else ""
    case Preco =>
      if value == "" then Obrigatorio(c)
      else if Parse(value).None? || !IsPositive(Parse(value).value) then Invalido(c)
      else ""
    case Quantidade =>
      if value == "" then Obrigatorio(c)
      else if Parse(value).None? || InteiroNegativo(Parse(value).value) then Invalido(c)
      else ""
    case Ingredientes =>
      if IsBlank(value) then Obrigatorio(c)
      else if Utf16Length(value) < 5 then Invalido(c)
      else ""
    case CategoriaProduto =>
      if value == "" then Obrigatorio(c) else ""
  }

  /** The quantity "0" is accepted, while the price "0" is not. */
  lemma ZeroQuantidadeMasNaoPreco()
    ensures ValidateField(Quantidade, "0") == ""
    ensures ValidateField(Preco, "0") == "Preço deve ser maior que zero"
  {
    assert Parse("0") == Some(Literal(false, "0", false, "")) by {
      assert PointIndex("0") == 1;
      assert "0"[..1] == "0";
    }
    assert !HasNonZero("0");
  }

  /** The category validator checks presence only: any non-empty code is accepted. */
  lemma CategoriaSemListaFechada(value: string)
    requires value != ""
    ensures ValidateField(CategoriaProduto, value) == ""
  {
  }

  /** The name's length is counted before trimming: "  a" is accepted and submitted as "a". */
  lemma NomeContadoAntesDoTrim()
    ensures ValidateField(Nome, "  a") == ""
    ensures Trim("  a") == "a"
  {
    NomeComEspacosAceito();
    NomeComEspacosAparado();
  }

  /** "  a" has a visible character and length 3. */
  lemma NomeComEspacosAceito()
    ensures ValidateField(Nome, "  a") == ""
  {
    assert !IsWhitespace("  a"[2]);
    assert Utf16Length("  a") == 3 by {
      Utf16LengthBounds("  a");
    }
  }

  /** Trimming "  a" leaves "a". */
  lemma NomeComEspacosAparado()
    ensures Trim("  a") == "a"
  {
    assert "  a" == "  " + "a";
    TrimOfPadded("  ", "a");
  }

  /**
   * The minimum length counts UTF-16 code units, as JavaScript's `length`
   * does: a name of one emoji and one letter has two characters but length 3,
   * and is accepted.
   */
  lemma NomeContadoEmUnidadesUtf16()
    ensures |"\U{1F600}a"| == 2
    ensures ValidateField(Nome, "\U{1F600}a") == ""
  {
    assert "\U{1F600}a"[..1] == "\U{1F600}";
    assert "\U{1F600}"[..0] == "";
    assert !IsWhitespace("\U{1F600}a"[1]);
  }

  /** A fractional quantity such as ".5" is accepted; its `parseInt` is NaN. */
  lemma QuantidadeFracionariaAceita()
    ensures ValidateField(Quantidade, ".5") == ""
    ensures Parse(".5").Some? && IntegerPart(Parse(".5").value) == None
  {
    assert PointIndex(".5") == 0;
    assert ".5"[1..] == "5";
    assert Parse(".5") == Some(Literal(false, "", true, "5"));
  }

  /** `validateForm`'s verdict: every field passes its validator. */
  predicate FormValido(data: FormData) {
    forall c :: CampoValido(c, data.Get(c))
  }

  /**
   * The `forEach` of `validateForm`: the errors map gets a key exactly for
   * each failing field, holding that field's message.
   */
  method CollectErrors(data: FormData) returns (erros: map<Campo, string>)
    ensures forall c :: c in erros <==> !CampoValido(c, data.Get(c))
    ensures forall c :: c in erros ==> erros[c] == ValidateField(c, data.Get(c)) && erros[c] != ""
    ensures |erros| == 0 <==> FormValido(data)
  {
    erros := map[];
    var i := 0;
    while i < |CAMPOS|
      invariant 0 <= i <= |CAMPOS|
      invariant forall c :: c in erros <==> c in CAMPOS[..i] && !CampoValido(c, data.Get(c))
      invariant forall c :: c in erros ==> erros[c] == ValidateField(c, data.Get(c)) && erros[c] != ""
    {
      var key := CAMPOS[i];
      var error := ValidateField(key, data.Get(key));
      if error != "" {
        erros := erros[key := error];
      }
      assert CAMPOS[..i + 1] == CAMPOS[..i] + [key];
      i := i + 1;
    }
    assert CAMPOS[..i] == CAMPOS;
    forall c ensures c in CAMPOS {
      CamposCompletos(c);
    }
    if !FormValido(data) {
      var c :| !CampoValido(c, data.Get(c));
      assert c in erros;
    }
  }

  /** The body `onSubmit` receives; `quantidade` is `None` where `parseInt` gives NaN. */
  datatype Payload = Payload(
    nome: string, preco: Literal, quantidade: Option<int>, ingredientes: string, categoriaProduto: string)

  /** The payload of a valid form: trimmed texts, the parsed numbers, the category as typed. */
  function PayloadOf(data: FormData): (p: Payload)
    requires FormValido(data)
    ensures p.nome == Trim(data.nome) && p.nome != ""
    ensures p.ingredientes == Trim(data.ingredientes) && p.ingredientes != ""
    ensures IsPositive(p.preco) && Show(p.preco) == data.preco
    ensures p.quantidade.Some? ==> p.quantidade.value >= 0
    ensures p.quantidade.None? <==> Parse(data.quantidade).value.whole == ""
    ensures p.categoriaProduto == data.categoriaProduto && p.categoriaProduto != ""
  {
    assert CampoValido(Nome, data.Get(Nome)) && CampoValido(Preco, data.Get(Preco));
    assert CampoValido(Quantidade, data.Get(Quantidade)) && CampoValido(Ingredientes, data.Get(Ingredientes));
    assert CampoValido(CategoriaProduto, data.Get(CategoriaProduto));
    BlankIffTrimEmpty(data.nome);
    BlankIffTrimEmpty(data.ingredientes);
    ParseLossless(data.preco);
    Payload(
      Trim(data.nome),
      Parse(data.preco).value,
      IntegerPart(Parse(data.quantidade).value),
      Trim(data.ingredientes),
      data.categoriaProduto)
  }

  /** The dialog's state. */
  class Dialog {
    var open: bool
    var formData: FormData
    var errors: map<Campo, string>
    var touched: set<Campo>

    constructor(aberto: bool)
      ensures open == aberto && formData == FORM_VAZIO && errors == map[] && touched == {}
    {
      open := aberto;
      formData := FORM_VAZIO;
      errors := map[];
      touched := {};
    }

    /** The `open` property changes; closing empties the form, the errors and the touched set. */
    method SetOpen(aberto: bool)
      modifies this
      ensures open == aberto
      ensures !aberto ==> formData == FORM_VAZIO && errors == map[] && touched == {}
      ensures aberto ==> formData == old(formData) && errors == old(errors) && touched == old(touched)
    {
      open := aberto;
      if !open {
        formData := FORM_VAZIO;
        errors := map[];
        touched := {};
      }
    }

    /** `handleChange`: only the named field changes, and it is re-validated only once touched. */
    method HandleChange(c: Campo, value: string)
      modifies this`formData, this`errors
      ensures formData == old(formData).With(c, value)
      ensures c in touched ==> errors == old(errors)[c := ValidateField(c, value)]
      ensures c !in touched ==> errors == old(errors)
    {
      formData := formData.With(c, value);
      if c in touched {
        var error := ValidateField(c, value);
        errors := errors[c := error];
      }
    }

    /** `handleBlur`: the field becomes touched and its current value is validated. */
    method HandleBlur(c: Campo)
      modifies this`touched, this`errors
      ensures touched == old(touched) + {c}
      ensures errors == old(errors)[c := ValidateField(c, old(formData).Get(c))]
    {
      errors := errors[c := ValidateField(c, formData.Get(c))];
      touched := touched + {c};
    }

    /** `validateForm`: the errors map is replaced by the failing fields' messages. */
    method ValidateForm() returns (valido: bool)
      modifies this`errors
      ensures valido <==> FormValido(formData)
      ensures forall d :: d in errors <==> !CampoValido(d, formData.Get(d))
      ensures forall d :: d in errors ==> errors[d] == ValidateField(d, formData.Get(d))
    {
      var novos := CollectErrors(formData);
      errors := novos;
      valido := |novos| == 0;
    }

    /** `handleSubmit`: every field becomes touched; a payload goes out only from a valid form. */
    method HandleSubmit() returns (enviado: Option<Payload>)
      modifies this`touched, this`errors
      ensures touched == set d | d in CAMPOS
      ensures forall d :: d in errors <==> !CampoValido(d, formData.Get(d))
      ensures forall d :: d in errors ==> errors[d] == ValidateField(d, formData.Get(d))
      ensures enviado.Some? <==> FormValido(formData)
      ensures enviado.Some? ==> enviado.value == PayloadOf(formData)
    {
      touched := set d | d in CAMPOS;
      var valido := ValidateForm();
      if !valido {
        return None;
      }
      enviado := Some(PayloadOf(formData));
    }
  }
}
