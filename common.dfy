/** Shared value types of the order service: optional values (C#'s nullable
    references and `Nullable<T>`), results that carry the exception the code
    would throw, the error kinds of the service, identifiers and dates. */
module Common {

  /** A nullable value: `None` is C#'s `null`. */
  datatype Option<+T> = None | Some(value: T)

  /** The outcome of an operation whose C# counterpart throws on failure. */
  datatype Result<+T> = Ok(value: T) | Err(error: Error)

  /** One constructor per distinct exception the service throws; the comment
      gives the message of the C# exception. */
  datatype Error =
    // OrderRepository
    | OrderNotFound          // "Error: Pedido no encontrado"
    | ItemsOrderNotFound     // "Error: Orden no encontrada" (CountItemsOrderById)
    | AlreadyCancelled       // "Error: Pedido ya cancelado"
    | AlreadyShipped         // "... porque ya fue enviado."
    | AlreadyDelivered       // "... porque ya fue entregado."
    | InvalidDateRange       // "Error: La fecha final debe ser mayor a la fecha inicial"
    | NoResults              // "Error: Sin Resultados"
    | UserWithoutOrders      // "Error: Usuario sin pedidos"
    // OrderGrpcService input validation
    | MissingUserId          // "Error. Id de usuario es requerido"
    | MissingUserName        // "Error. Nombre de usuario requerido"
    | MissingAddress         // "Error. Direccion requerida"
    | MissingItems           // "Error. Items requeridos"
    | ProductWithoutId       // "Error. Producto sin Id"
    | ProductWithoutName     // "Error. Producto sin nombre de usuario"
    | NonPositiveQuantity    // "Error. La cantidad de cada producto debe ser mayor a 0"
    | NonPositivePrice       // "Error. El precio de cada producto debe ser mayor a 0"
    | MissingIdentifier      // "Error. Identifier ... requerido"
    | MissingOrderStatus     // "Error. Nuevo estado de orden requerido"
    | InvalidOrderStatus     // "Error. Estado inválido. ..."
    | TrackingNumberRequired // "Error: El numero de seguimiento es requerido ..."
    | TrackingNumberNotAllowed // "Error: El número de seguimiento solo puede asignarse ..."
    // Parsers of the .NET library
    | MalformedGuid          // FormatException of Guid.Parse
    | MalformedDate          // FormatException of DateOnly.Parse

  /** A `System.Guid`: a 128-bit value compared by equality only. */
  newtype Guid = x: int | 0 <= x < 0x1_0000_0000_0000_0000_0000_0000_0000_0000

  /** A `DateOnly`, as its day number. */
  type Date = int

  /** `Guid.TryParse` and `Guid.Parse`, which share one parser; `None` is a
      string the parser rejects. */
  type GuidParser = string -> Option<Guid>

  /** `DateOnly.Parse`; `None` is a string it rejects. */
  type DateParser = string -> Option<Date>
}

/** The `System.String` operations the service relies on. */
module Text {
  import opened Common

  /** `char.IsWhiteSpace`: the Unicode space separators, line and paragraph
      separators, U+0009 to U+000D and U+0085. */
  predicate IsWhiteSpace(c: char) {
    || c == ' ' || ('\t' <= c <= '\r')
    || c == '\U{0085}' || c == '\U{00A0}' || c == '\U{1680}'
    || ('\U{2000}' <= c <= '\U{200A}')
    || c == '\U{2028}' || c == '\U{2029}' || c == '\U{202F}'
    || c == '\U{205F}' || c == '\U{3000}'
  }

  /** A string made of white space only (the empty string included). */
  predicate IsBlank(s: string) {
    forall i :: 0 <= i < |s| ==> IsWhiteSpace(s[i])
  }

  /** `string.IsNullOrWhiteSpace`. */
  predicate IsNullOrWhiteSpace(s: Option<string>) {
    s.None? || IsBlank(s.value)
  }

  /** `char.ToLower` on the ASCII letters. */
  function LowerChar(c: char): char {
    if 'A' <= c <= 'Z' then (c as int + 32) as char else c
  }

  /** `string.ToLower`, character by character. */
  function Lower(s: string): (r: string)
    ensures |r| == |s|
    ensures forall i :: 0 <= i < |s| ==> r[i] == LowerChar(s[i])
  {
    seq(|s|, i requires 0 <= i < |s| => LowerChar(s[i]))
  }

  /** `string.Replace(" ", "")`: every U+0020 removed, the rest kept in order. */
  function RemoveSpaces(s: string): (r: string)
    ensures |r| <= |s|
    ensures forall i :: 0 <= i < |r| ==> r[i] != ' '
    ensures (forall i :: 0 <= i < |s| ==> s[i] != ' ') ==> r == s
  {
    if s == [] then []
    else if s[0] == ' ' then RemoveSpaces(s[1..])
    else [s[0]] + RemoveSpaces(s[1..])
  }

  /** `string.TrimStart()`: the leading white space removed. */
  function TrimStart(s: string): (r: string)
    ensures |r| <= |s| && r == s[|s| - |r|..]
    ensures IsBlank(s[..|s| - |r|])
    ensures r != [] ==> !IsWhiteSpace(r[0])
  {
    if s != [] && IsWhiteSpace(s[0]) then TrimStart(s[1..]) else s
  }

  /** `string.TrimEnd()`: the trailing white space removed. */
  function TrimEnd(s: string): (r: string)
    ensures |r| <= |s| && r == s[..|r|]
    ensures IsBlank(s[|r|..])
    ensures r != [] ==> !IsWhiteSpace(r[|r| - 1])
  {
    if s != [] && IsWhiteSpace(s[|s| - 1]) then TrimEnd(s[..|s| - 1]) else s
  }

  /** `string.Trim()`. */
  function Trim(s: string): string {
    TrimEnd(TrimStart(s))
  }

  /** Lower-casing keeps white space where it was, so a string is blank
      exactly when its lower-cased form is. */
  lemma LowerKeepsBlank(s: string)
    ensures IsBlank(Lower(s)) <==> IsBlank(s)
  {
    forall i | 0 <= i < |s| ensures IsWhiteSpace(Lower(s)[i]) <==> IsWhiteSpace(s[i]) {
    }
  }
}
