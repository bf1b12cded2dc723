/**
 * The engine-definition exceptions (src/Exceptions/Engine_Exception.php):
 * two argument-free factories, each with its own fixed message and code.
 */
module EngineDefinition {

  datatype DefinitionException = DefinitionException(message: string, code: int)

  const ValidatorAlreadyDefinedMessage: string := "An Engines Schema Validator has already been defined for this builder"
  const TranslatorAlreadyDefinedMessage: string := "An Engines Schema Translator has already been defined for this builder"

  /** `valdidator_already_defined()`: code 1. */
  function ValidatorAlreadyDefined(): (e: DefinitionException)
    ensures e.code == 1 && e.message == ValidatorAlreadyDefinedMessage
  {
    DefinitionException(ValidatorAlreadyDefinedMessage, 1)
  }

  /** `translator_already_defined()`: code 2. */
  function TranslatorAlreadyDefined(): (e: DefinitionException)
    ensures e.code == 2 && e.message == TranslatorAlreadyDefinedMessage
  {
    DefinitionException(TranslatorAlreadyDefinedMessage, 2)
  }

  /** The two factories differ both in code and in message. */
  lemma DefinitionExceptionsDiffer()
    ensures ValidatorAlreadyDefined().code != TranslatorAlreadyDefined().code
    ensures ValidatorAlreadyDefined().message != TranslatorAlreadyDefined().message
  {
    assert |ValidatorAlreadyDefinedMessage| != |TranslatorAlreadyDefinedMessage|;
  }
}
