/** `prompts.py`: the three chat messages sent to the extraction model for
    one purchase order, the system instructions, the text of the order and the
    instructions for orders with several lines.

    Each literal of the source is one constant below (long ones are written
    as several pieces), and a message is the concatenation of its literals in
    source order. The messages name the `"Delivery Address"` key by the
    constant the post-processing of the reply uses. */
module Prompts {
  import opened Common
  import opened DataProcessing

  /** A chat message `{"role": ..., "content": ...}`. */
  datatype Message = Message(role: string, content: string)

  // The literals of `get_system_message`, in order. The missing line break
  // before the order number and the spelling of the source are kept.
  const Intro: string :=
    "You are an AI extracting relevant content from a purchase"
    + " order. "
  const FieldsHeader: string :=
    "Find the following details and return ONLY a valid JSON"
    + " object with these fields:"
  const CustomerNameField: string :=
    "\n- Customer Name (Look for contetns in terms and condition,"
    + " header, footer section, website link, )"
  const OrderNumberField: string :=
    "- Purchase Order Number"
  const DeliveryDateField: string :=
    "\n- Required Delivery Date (convert to ISO format YYYY-MM-DD)"
  const MaterialField: string :=
    "\n- Material Number (Extract from the line item section,"
    + " ignore `material description`,usually in the same row as"
    + " 'Order Qty' and 'UOM'),(it could have different naming"
    + " convenstion such as `Our Ref`)"
  const QuantityField: string :=
    "\n- Order Quantity in kg (only the converted kg value, if the"
    + " UOM is not specificied in kg or lb, consider it as kg, do"
    + " not include pounds or extra text, round down to the nearest"
    + " integer)"
  const AddressField: string :=
    "\n- "
    + DeliveryAddress
    + " (extract ONLY the 'SHIP TO' address, includes distribution"
    + " name if it is there, ignore all other addresses including"
    + " 'Vendor', 'Invoice', 'Billing', and any address containing"
    + " 'PO Box')"
  const ImportantHeader: string :=
    "\n\nIMPORTANT: "
  const JsonOnlyRule: string :=
    "- Return ONLY a valid JSON object. Do NOT include"
    + " explanations, introductions, or Markdown formatting."
  const QuantityRule: string :=
    "- Ensure 'Order Quantity in kg' is a clean number without"
    + " thousand separators or extra text."
  const DateRule: string :=
    "- Ensure 'Required Delivery Date' follows ISO 8601 format"
    + " (YYYY-MM-DD)."
  const AddressRule: string :=
    "- Ensure '"
    + DeliveryAddress
    + "' is the correct 'SHIP TO' address."
  const AddressIgnoreRule: string :=
    "- Ignore addresses related to 'Vendor', 'Invoice',"
    + " 'Billing', 'Remit To', 'PO Box', or 'Mailing Address'."
  const MaterialIgnoreRule: string :=
    "- Ignore Material Number related to 'Vendor', 'Invoice',"
    + " 'Billing', 'Remit To', 'PO Box', or 'Mailing Ref','Your"
    + " material number'."
  const PriceRule: string :=
    "- Ignore **Price per unit** label."

  const SystemLines: seq<string> :=
    [Intro, FieldsHeader, CustomerNameField, OrderNumberField, DeliveryDateField,
     MaterialField, QuantityField, AddressField, ImportantHeader, JsonOnlyRule,
     QuantityRule, DateRule, AddressRule, AddressIgnoreRule, MaterialIgnoreRule,
     PriceRule]

  /** `get_system_message()`. */
  function SystemMessage(): string
  {
    Concat(SystemLines)
  }

  // The literals of `get_multi_line_prompt`, in order.
  const AnalyzeLine: string :=
    "Analyze the purchase order details provided. If the item"
    + " section contains more than one item number, this indicates"
    + " there are multiple purchase order lines. "
  const ArrayLine: string :=
    "In that case, extract and output each line separately as a"
    + " JSON array, where each element represents a single purchase"
    + " order line with all its details. "
  const SingleObjectLine: string :=
    "If there's only one line, output it as a single JSON object."
    + " Ensure that no line is omitted."
  const AddressFormatLine: string :=
    "\n\nIMPORTANT: Format the "
    + DeliveryAddress
    + " as a single line with spaces instead of line breaks."

  const MultiLineLines: seq<string> := [AnalyzeLine, ArrayLine, SingleObjectLine, AddressFormatLine]

  /** `get_multi_line_prompt()`. */
  function MultiLinePrompt(): string
  {
    Concat(MultiLineLines)
  }

  const UserPreamble: string := "Extract relevant details from the following purchase order:\n"

  /** The user prompt of `create_prompts`: the preamble, then the text of the
      order, which can be read back after the preamble. */
  function UserPrompt(pdfText: string): (p: string)
    ensures |p| == |UserPreamble| + |pdfText|
    ensures p[..|UserPreamble|] == UserPreamble && p[|UserPreamble|..] == pdfText
  {
    UserPreamble + pdfText
  }

  /** `create_prompts(pdf_text)`: the system message and the user prompt,
      then the multi-line instructions appended as a second system message. */
  method CreatePrompts(pdfText: string) returns (prompts: seq<Message>)
    ensures prompts == [Message("system", SystemMessage()), Message("user", UserPrompt(pdfText)),
                        Message("system", MultiLinePrompt())]
    ensures prompts[1].content[|UserPreamble|..] == pdfText
  {
    var systemMessage := SystemMessage();
    var userPrompt := UserPrompt(pdfText);
    prompts := [Message("system", systemMessage), Message("user", userPrompt)];
    prompts := prompts + [Message("system", MultiLinePrompt())];
  }

  /** Different order texts give different user prompts. */
  lemma UserPromptInjective(a: string, b: string)
    requires a != b
    ensures UserPrompt(a) != UserPrompt(b)
  {
    assert UserPrompt(a)[|UserPreamble|..] == a;
    assert UserPrompt(b)[|UserPreamble|..] == b;
  }

  /** A text that occurs in the middle part of a concatenation occurs in the
      whole. */
  lemma OccursIn(p: string, a: string, x: string, b: string)
    requires IsSubstring(p, x)
    ensures IsSubstring(p, a + x + b)
  {
    var i: nat :| i <= |x| && OccursAt(p, x, i);
    assert (a + x + b)[|a| + i..|a| + i + |p|] == x[i..i + |p|];
    assert OccursAt(p, a + x + b, |a| + i);
  }

  /** A text that occurs in one of the pieces occurs in their concatenation. */
  lemma {:induction false} ConcatOccurs(p: string, ss: seq<string>, i: nat)
    requires i < |ss| && IsSubstring(p, ss[i])
    ensures IsSubstring(p, Concat(ss))
    decreases i
  {
    if i == 0 {
      OccursIn(p, "", ss[0], Concat(ss[1..]));
      assert "" + ss[0] + Concat(ss[1..]) == Concat(ss);
    } else {
      ConcatOccurs(p, ss[1..], i - 1);
      OccursIn(p, ss[0], Concat(ss[1..]), "");
      assert ss[0] + Concat(ss[1..]) + "" == Concat(ss);
    }
  }

  /** A key occurs in itself. */
  lemma OccursSelf(p: string)
    ensures IsSubstring(p, p)
  {
    assert OccursAt(p, p, 0);
  }

  /** The system message asks for the delivery address among its fields, the
      key whose line breaks the reply processing removes. */
  lemma SystemMessageAsksForAddress()
    ensures IsSubstring(DeliveryAddress, SystemMessage())
  {
    OccursSelf(DeliveryAddress);
    OccursIn(DeliveryAddress, "- Ensure '", DeliveryAddress, "' is the correct 'SHIP TO' address.");
    ConcatOccurs(DeliveryAddress, SystemLines, 12);
  }

  /** The multi-line instructions name the same key. */
  lemma MultiLinePromptNamesAddress()
    ensures IsSubstring(DeliveryAddress, MultiLinePrompt())
  {
    OccursSelf(DeliveryAddress);
    OccursIn(DeliveryAddress, "\n\nIMPORTANT: Format the ", DeliveryAddress,
      " as a single line with spaces instead of line breaks.");
    ConcatOccurs(DeliveryAddress, MultiLineLines, 3);
  }
}
