/**
 * Property maps (`go-properties-orderedmap`) as plain maps from keys to
 * values; key order is not modelled.
 */
module PropertiesMap {
  type Props = map<string, string>

  /** `Get` on a property map: the value, or "" when the key is missing. */
  function Get(props: Props, key: string): string
  {
    if key in props then props[key] else ""
  }
}
