/** The names of tag technologies shared with the NFC service. */
module TargetTypes {
  const TARGET_TYPE_UNKNOWN := -1
  const TARGET_TYPE_ISO14443_3A := 1
  const TARGET_TYPE_ISO14443_3B := 2
  const TARGET_TYPE_ISO14443_4 := 3
  const TARGET_TYPE_FELICA := 4
  const TARGET_TYPE_ISO15693 := 5
  const TARGET_TYPE_MIFARE_CLASSIC := 8
  const TARGET_TYPE_MIFARE_UL := 9
  const TARGET_TYPE_KOVIO_BARCODE := 10
}
