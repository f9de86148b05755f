/**
 * The settings the modelled code imports from `sec_edgar_downloader._constants`,
 * a module that is not part of this model. Each is a parameter here, so every
 * property below holds whatever values that module defines.
 */
module EdgarConstants {

  datatype Constants = Constants(
    /** `SEC_EDGAR_ARCHIVES_BASE_URL`. */
    archivesBaseUrl: string,
    /** `SUPPORTED_FILINGS`, used only for membership tests. */
    supportedFilings: set<string>,
    /** `ROOT_SAVE_FOLDER_NAME`. */
    rootSaveFolderName: string,
    /** `FILING_DETAILS_FILENAME_STEM`. */
    filingDetailsFilenameStem: string,
    /** `DEFAULT_AFTER_DATE` rendered with `DATE_FORMAT_TOKENS`. */
    defaultAfterDate: string,
    /** `DEFAULT_BEFORE_DATE` rendered with `DATE_FORMAT_TOKENS` (today's date, read from the clock). */
    defaultBeforeDate: string,
    /** `is_cik`. */
    isCik: string -> bool,
    /** Whether `datetime.strptime(s, DATE_FORMAT_TOKENS)` accepts s, as `validate_date_format` asks. */
    isDateFormat: string -> bool)
}
